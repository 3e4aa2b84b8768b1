/**
 A run of the kernel with all its objects, looked at from one of them: its own calls, and steps
 of the rest. What is counted and recorded here is what happens in that run; it comes out as it
 does when the object is alone with the kernel.
 */
module WorldRuns {
  import opened Common
  import opened Subsequence
  import opened KernelState
  import opened KernelRuns
  import opened WaitSteps
  import opened ObjectSteps
  import opened Worlds
  import S = KernelSpec
  import Sm = Semaphores
  import Dq = DataQueues
  import Dr = DataQueueRuns
  import Df = DataFlows
  import Mp = MemPools

  /** A step that is no call on the `j`-th object is a foreign step for it, or none at all. */
  lemma SeenFrom(w: World, wop: WorldOp, j: nat) returns (kop: Option<Op>)
    requires WorldOk(w) && WorldEnabled(w, wop) && j < |w.objs| && !(wop.On? && wop.i == j)
    ensures w.s.cfg.time.Ok()
    ensures var w' := WorldDo(w, wop);
      && |w'.objs| == |w.objs| && w'.objs[j] == w.objs[j]
      && match kop
         case None => w'.s == w.s
         case Some(op) =>
           ShapeOk(w.s) && Enabled(w.s, op) && Do(w.s, op) == w'.s && forall q :: q in QueuesOf(w.objs[j]) ==> Foreign(w.s, op, q)
  {
    hide Inv, ObjOk, ShapeOk, Enabled, Do, Foreign, CallEnabled, CallDo, QueuesOf;
    WorldShape(w);
    match wop
    case Kernel(op) => kop := Some(op);
    case On(i, call) =>
      kop := CallIsStep(w.s, w.objs[i], call);
      assert if i < j then QueuesOf(w.objs[i]) !! QueuesOf(w.objs[j]) else QueuesOf(w.objs[j]) !! QueuesOf(w.objs[i]);
      ObjInv(w.s, w.objs[j]);
  }

  lemma StillOne(w: World, wop: WorldOp, j: nat)
    requires WorldOk(w) && WorldEnabled(w, wop) && j < |w.objs|
    ensures var w' := WorldDo(w, wop);
      && |w'.objs| == |w.objs|
      && (wop.On? && wop.i == j ==> (w'.s, w'.objs[j]) == CallDo(w.s, w.objs[j], wop.call) && ObjOk(w.s, w.objs[j]))
  {
    hide Inv, ObjOk, ShapeOk, Enabled, Do, Foreign, CallEnabled, CallDo, QueuesOf;
  }

  // ----- a semaphore -----

  ghost predicate IsSem(w: World, j: nat) {
    j < |w.objs| && w.objs[j].Sem?
  }

  function SemAt(w: World, j: nat): Sm.SemState
    requires j < |w.objs| && w.objs[j].Sem?
  {
    Sm.SemState(w.s, w.objs[j].cnt)
  }

  /** The books of a semaphore in one step: its own calls count as they do alone; whatever else
      happens, a task whose wait there ends with E_OK has taken a resource. */
  ghost function LedgerStep(w: World, wop: WorldOp, j: nat, l: Sm.Ledger): Sm.Ledger
    requires WorldOk(w) && WorldEnabled(w, wop) && IsSem(w, j) && l.x == SemAt(w, j)
  {
    OneOk(w, j);
    if wop.On? && wop.i == j then Sm.LedgerDo(l, w.objs[j].sc, wop.call.sop)
    else
      var s' := WorldDo(w, wop).s;
      Sm.Ledger(Sm.SemState(s', l.x.cnt), l.given, l.taken + |Sm.Served(w.s, s', w.objs[j].sc.q)|)
  }

  /** The step is one of the semaphore, or none. */
  lemma LedgerStepIs(w: World, wop: WorldOp, j: nat, l: Sm.Ledger)
    requires WorldOk(w) && WorldEnabled(w, wop) && IsSem(w, j) && l.x == SemAt(w, j)
    ensures var w1 := WorldDo(w, wop);
      && WorldOk(w1) && IsSem(w1, j) && w1.objs[j].sc == w.objs[j].sc && LedgerStep(w, wop, j, l).x == SemAt(w1, j)
    ensures var c := w.objs[j].sc;
      || LedgerStep(w, wop, j, l) == l
      || exists op :: Sm.SemOk(l.x, c) && Sm.SemEnabled(l.x, c, op) && LedgerStep(w, wop, j, l) == Sm.LedgerDo(l, c, op)
  {
    hide Inv, ShapeOk, Enabled, Do, Foreign, Sm.SemOk;
    WorldStepKeeps(w, wop);
    StillOne(w, wop, j);
    OneOk(w, j);
    var c := w.objs[j].sc;
    if wop.On? && wop.i == j {
      assert Sm.SemEnabled(l.x, c, wop.call.sop);
    } else {
      var kop := SeenFrom(w, wop, j);
      match kop
      case None => NobodyServed(l.x, c);
      case Some(op) => assert Sm.SemEnabled(l.x, c, Sm.Other(op));
    }
  }

  lemma NobodyServed(x: Sm.SemState, c: Sm.SemConfig)
    requires Sm.SemOk(x, c)
    ensures c.q in x.s.queue && Sm.Served(x.s, x.s, c.q) == {}
  {
    hide Inv;
    ObjectQueue(x.s, c.q);
  }

  /** The books over a run. */
  ghost function LedgerOf(w: World, wops: seq<WorldOp>, w': World, j: nat, l: Sm.Ledger): Sm.Ledger
    requires WorldOk(w) && WorldRun(w, wops, w') && IsSem(w, j) && l.x == SemAt(w, j)
    decreases |wops|
  {
    if wops == [] then l
    else
      LedgerStepIs(w, wops[0], j, l);
      LedgerOf(WorldDo(w, wops[0]), wops[1..], w', j, LedgerStep(w, wops[0], j, l))
  }

  lemma {:induction false} LedgerBalanced(w: World, wops: seq<WorldOp>, w': World, j: nat, l: Sm.Ledger)
    requires WorldOk(w) && WorldRun(w, wops, w') && IsSem(w, j) && l.x == SemAt(w, j)
    requires l.x.cnt + l.taken == w.objs[j].sc.isemcnt + l.given
    ensures IsSem(w', j) && w'.objs[j].sc == w.objs[j].sc
    ensures var l' := LedgerOf(w, wops, w', j, l);
      l'.x == SemAt(w', j) && l'.x.cnt + l'.taken == w.objs[j].sc.isemcnt + l'.given
    decreases |wops|
  {
    hide WorldOk, WorldEnabled, WorldDo, LedgerStep, Sm.SemOk, Sm.SemEnabled, Sm.LedgerDo;
    if wops != [] {
      var l1 := LedgerStep(w, wops[0], j, l);
      var c := w.objs[j].sc;
      LedgerStepIs(w, wops[0], j, l);
      if l1 != l {
        var op :| Sm.SemOk(l.x, c) && Sm.SemEnabled(l.x, c, op) && l1 == Sm.LedgerDo(l, c, op);
        OneLedgerStep(l, c, op);
      }
      LedgerBalanced(WorldDo(w, wops[0]), wops[1..], w', j, l1);
    }
  }

  lemma OneLedgerStep(l: Sm.Ledger, c: Sm.SemConfig, op: Sm.SemOp)
    requires Sm.SemOk(l.x, c) && Sm.SemEnabled(l.x, c, op) && l.x.cnt + l.taken == c.isemcnt + l.given
    ensures var l1 := Sm.LedgerDo(l, c, op); l1.x.cnt + l1.taken == c.isemcnt + l1.given
  {
    hide Sm.SemOk, Sm.SemEnabled, Sm.SemDo;
    Sm.Balance(l.x, c, op);
  }

  /** From start-up on, in the company of any other objects: a semaphore's count is the initial
      count plus the signals that it accepted in the run, less the resources that tasks got. */
  lemma SemaphoreConserves(cfg: Config, torder: seq<TaskId>, act: set<TaskId>, sta: seq<bool>, objs: seq<Obj>, wops: seq<WorldOp>, w: World, j: nat)
    requires cfg.Ok() && |sta| == |cfg.cycphs| && S.AllTasks(torder, |cfg.ipriority|) && NoDup(torder)
    requires AllApart(objs) && forall i :: 0 <= i < |objs| ==> Fresh(cfg, objs[i])
    requires WorldRun(World(Boot(cfg, torder, act, sta), objs), wops, w) && j < |objs| && objs[j].Sem?
    ensures WorldOk(World(Boot(cfg, torder, act, sta), objs)) && IsSem(w, j)
    ensures var w0 := World(Boot(cfg, torder, act, sta), objs);
      var l := LedgerOf(w0, wops, w, j, Sm.Ledger(SemAt(w0, j), 0, 0));
      w.objs[j].cnt + l.taken == objs[j].sc.isemcnt + l.given
  {
    hide Inv, Boot, WorldRun, WorldOk, ObjOk, QueuesOf, LedgerOf;
    var w0 := World(Boot(cfg, torder, act, sta), objs);
    BootWorldOk(cfg, torder, act, sta, objs);
    LedgerBalanced(w0, wops, w, j, Sm.Ledger(SemAt(w0, j), 0, 0));
  }

  lemma OneOk(w: World, j: nat)
    requires WorldOk(w) && j < |w.objs|
    ensures ObjOk(w.s, w.objs[j])
    ensures match w.objs[j]
      case Sem(c, cnt) => Sm.SemOk(Sm.SemState(w.s, cnt), c) && c.q in w.s.queue
      case Dtq(c, items, sdata, rdata) => Dq.DtqOk(Dq.DtqState(w.s, items, sdata, rdata), c)
      case Mpf(c, pool, blk) => Mp.MpfOk(Mp.MpfState(w.s, pool, blk), c) && c.blksz > 0
      case _ => true
  {
    hide Inv, Dq.DtqOk;
    assert ObjOk(w.s, w.objs[j]);
  }

  // ----- a data queue -----

  ghost predicate IsDtq(w: World, j: nat) {
    j < |w.objs| && w.objs[j].Dtq?
  }

  function DtqAt(w: World, j: nat): Dq.DtqState
    requires j < |w.objs| && w.objs[j].Dtq?
  {
    Dq.DtqState(w.s, w.objs[j].items, w.objs[j].sdata, w.objs[j].rdata)
  }

  /** The history of a data queue in one step: its own calls change it as they do alone; whatever
      else happens, the data of senders that no longer wait leave the line, and what the first
      waiting receiver gets is delivered. */
  ghost function FlowStep(w: World, wop: WorldOp, j: nat, l: Df.Flow): Df.Flow
    requires WorldOk(w) && WorldEnabled(w, wop) && IsDtq(w, j) && l.x == DtqAt(w, j)
  {
    OneOk(w, j);
    var c := w.objs[j].dc;
    if wop.On? && wop.i == j then Df.FlowDo(l, c, wop.call.dop)
    else
      DtqStays(w, wop, j);
      var x' := l.x.(s := WorldDo(w, wop).s);
      Df.Flow(x', l.accepted, Df.Front(l.line, |Df.Waiting(l.x, c)|) + Df.Waiting(x', c), l.delivered + Df.Delivered(l.x, x', c))
  }

  lemma DtqStays(w: World, wop: WorldOp, j: nat)
    requires WorldOk(w) && WorldEnabled(w, wop) && IsDtq(w, j)
    ensures var w1 := WorldDo(w, wop);
      && WorldOk(w1) && IsDtq(w1, j) && w1.objs[j].dc == w.objs[j].dc && Dq.DtqOk(DtqAt(w1, j), w.objs[j].dc)
      && (!(wop.On? && wop.i == j) ==> DtqAt(w1, j) == DtqAt(w, j).(s := w1.s))
  {
    hide WorldOk, ObjOk, WorldEnabled, WorldDo, Dq.DtqOk;
    WorldStepKeeps(w, wop);
    StillOne(w, wop, j);
    OneOk(w, j);
    if wop.On? && wop.i == j {
      StillDtq(w, wop, j);
    } else {
      var _ := SeenFrom(w, wop, j);
    }
    OneOk(WorldDo(w, wop), j);
  }

  lemma StillDtq(w: World, wop: WorldOp, j: nat)
    requires WorldOk(w) && WorldEnabled(w, wop) && IsDtq(w, j) && wop.On? && wop.i == j
    ensures var w1 := WorldDo(w, wop); IsDtq(w1, j) && w1.objs[j].dc == w.objs[j].dc
  {
    hide Inv, ObjOk, CallEnabled, QueuesOf;
  }

  lemma FlowStepIs(w: World, wop: WorldOp, j: nat, l: Df.Flow)
    requires WorldOk(w) && WorldEnabled(w, wop) && IsDtq(w, j) && l.x == DtqAt(w, j)
    ensures var w1 := WorldDo(w, wop);
      && WorldOk(w1) && IsDtq(w1, j) && w1.objs[j].dc == w.objs[j].dc && FlowStep(w, wop, j, l).x == DtqAt(w1, j)
    ensures var c := w.objs[j].dc;
      && Dq.DtqOk(l.x, c)
      && (wop.On? && wop.i == j ==>
        wop.call.DtqCall? && Dr.DtqEnabled(l.x, c, wop.call.dop) && FlowStep(w, wop, j, l) == Df.FlowDo(l, c, wop.call.dop))
      && (!(wop.On? && wop.i == j) ==>
        || FlowStep(w, wop, j, l) == l.(line := Df.Front(l.line, |Df.Waiting(l.x, c)|) + Df.Waiting(l.x, c))
        || exists op: Op :: Dr.DtqEnabled(l.x, c, Dr.Other(op)) && FlowStep(w, wop, j, l) == Df.FlowDo(l, c, Dr.Other(op)))
  {
    hide Inv, ShapeOk, Enabled, Do, Foreign, WorldOk, Dq.DtqOk, Df.Front, Df.Waiting, Df.Delivered;
    DtqStays(w, wop, j);
    OneOk(w, j);
    var c := w.objs[j].dc;
    if wop.On? && wop.i == j {
      StillOne(w, wop, j);
    } else {
      var kop := SeenFrom(w, wop, j);
      match kop
      case None => Df.NothingDelivered(l.x, c);
      case Some(op) => assert Dr.DtqEnabled(l.x, c, Dr.Other(op));
    }
  }

  ghost function FlowOf(w: World, wops: seq<WorldOp>, w': World, j: nat, l: Df.Flow): Df.Flow
    requires WorldOk(w) && WorldRun(w, wops, w') && IsDtq(w, j) && l.x == DtqAt(w, j)
    decreases |wops|
  {
    if wops == [] then l
    else
      FlowStepIs(w, wops[0], j, l);
      FlowOf(WorldDo(w, wops[0]), wops[1..], w', j, FlowStep(w, wops[0], j, l))
  }

  /** Does no call on the data queue drop stored data? */
  ghost predicate KeepsStored(w: World, wops: seq<WorldOp>, w': World, j: nat)
    requires WorldOk(w) && WorldRun(w, wops, w') && IsDtq(w, j)
    decreases |wops|
  {
    wops == [] ||
    (DtqStays(w, wops[0], j);
     && StepKeepsStored(w, wops[0], j)
     && KeepsStored(WorldDo(w, wops[0]), wops[1..], w', j))
  }

  ghost predicate StepKeepsStored(w: World, wop: WorldOp, j: nat)
    requires WorldOk(w) && IsDtq(w, j)
  {
    OneOk(w, j);
    wop.On? && wop.i == j && wop.call.DtqCall? ==> Df.DropsNothing(DtqAt(w, j), w.objs[j].dc, wop.call.dop)
  }

  lemma OneFlowStep(w: World, wop: WorldOp, j: nat, l: Df.Flow, all: bool)
    requires WorldOk(w) && WorldEnabled(w, wop) && IsDtq(w, j) && l.x == DtqAt(w, j)
    requires !w.objs[j].dc.prio && w.objs[j].dc.sq !in w.s.cfg.tpri && Dq.DtqOk(l.x, w.objs[j].dc) && Df.InLine(l, w.objs[j].dc, all)
    ensures var c := w.objs[j].dc;
      var l1 := FlowStep(w, wop, j, l);
      && Dq.DtqOk(l1.x, c) && Df.InLine(l1, c, all && StepKeepsStored(w, wop, j)) && l1.x.s.cfg == w.s.cfg
  {
    hide WorldOk, WorldEnabled, WorldDo, FlowStep, Dq.DtqOk, Dr.DtqEnabled, Df.FlowDo, Df.InLine, Df.DropsNothing, Df.Front, Df.Waiting;
    var c := w.objs[j].dc;
    var l1 := FlowStep(w, wop, j, l);
    FlowStepIs(w, wop, j, l);
    if wop.On? && wop.i == j {
      Df.LineStep(l, c, wop.call.dop, all);
      Df.FlowIs(l, c, wop.call.dop);
    } else if l1 == l.(line := Df.Front(l.line, |Df.Waiting(l.x, c)|) + Df.Waiting(l.x, c)) {
      Df.LineIs(l, c, all);
      Df.SameLine(l, l1, c, all);
    } else {
      var op: Op :| Dr.DtqEnabled(l.x, c, Dr.Other(op)) && l1 == Df.FlowDo(l, c, Dr.Other(op));
      Df.LineStep(l, c, Dr.Other(op), all);
      Df.FlowIs(l, c, Dr.Other(op));
      OtherDropsNothing(l.x, c, op);
    }
  }

  lemma OtherDropsNothing(x: Dq.DtqState, c: Dq.DtqConfig, op: Op)
    requires Dq.DtqOk(x, c)
    ensures Df.DropsNothing(x, c, Dr.Other(op))
  {
    hide Dq.DtqOk;
  }

  lemma {:induction false} FlowInLine(w: World, wops: seq<WorldOp>, w': World, j: nat, l: Df.Flow, all: bool)
    requires WorldOk(w) && WorldRun(w, wops, w') && IsDtq(w, j) && l.x == DtqAt(w, j)
    requires !w.objs[j].dc.prio && w.objs[j].dc.sq !in w.s.cfg.tpri && Dq.DtqOk(l.x, w.objs[j].dc) && Df.InLine(l, w.objs[j].dc, all)
    ensures IsDtq(w', j) && w'.objs[j].dc == w.objs[j].dc
    ensures var l' := FlowOf(w, wops, w', j, l);
      l'.x == DtqAt(w', j) && Dq.DtqOk(l'.x, w.objs[j].dc) && Df.InLine(l', w.objs[j].dc, all && KeepsStored(w, wops, w', j))
    decreases |wops|
  {
    hide WorldOk, WorldEnabled, WorldDo, FlowStep, StepKeepsStored, Dq.DtqOk, Df.InLine;
    if wops != [] {
      FlowStepIs(w, wops[0], j, l);
      OneFlowStep(w, wops[0], j, l, all);
      FlowInLine(WorldDo(w, wops[0]), wops[1..], w', j, FlowStep(w, wops[0], j, l), all && StepKeepsStored(w, wops[0], j));
    }
  }

  /** From start-up on, in the company of any other objects: what a data queue has delivered in
      the run, followed by what it holds, is its line, in its order; and it is all of the line if
      no call on it drops stored data. */
  lemma DataQueueIsFifo(cfg: Config, torder: seq<TaskId>, act: set<TaskId>, sta: seq<bool>, objs: seq<Obj>, wops: seq<WorldOp>, w: World, j: nat)
    requires cfg.Ok() && |sta| == |cfg.cycphs| && S.AllTasks(torder, |cfg.ipriority|) && NoDup(torder)
    requires AllApart(objs) && forall i :: 0 <= i < |objs| ==> Fresh(cfg, objs[i])
    requires WorldRun(World(Boot(cfg, torder, act, sta), objs), wops, w)
    requires j < |objs| && objs[j].Dtq? && !objs[j].dc.prio && objs[j].dc.sq !in cfg.tpri
    ensures WorldOk(World(Boot(cfg, torder, act, sta), objs)) && IsDtq(w, j)
    ensures var w0 := World(Boot(cfg, torder, act, sta), objs);
      var l := FlowOf(w0, wops, w, j, Df.Flow(DtqAt(w0, j), [], [], []));
      && l.x == DtqAt(w, j) && Dq.DtqOk(l.x, objs[j].dc)
      && Subseq(l.delivered + Df.Contents(l.x, objs[j].dc), l.line)
      && (KeepsStored(w0, wops, w, j) ==> l.delivered + Df.Contents(l.x, objs[j].dc) == l.line)
  {
    hide Inv, Boot, WorldRun, WorldOk, ObjOk, QueuesOf, FlowOf, KeepsStored, Dq.DtqOk, Df.InLine, Df.Contents, Df.Waiting;
    var w0 := World(Boot(cfg, torder, act, sta), objs);
    var c := objs[j].dc;
    var l0 := Df.Flow(DtqAt(w0, j), [], [], []);
    BootWorldOk(cfg, torder, act, sta, objs);
    NothingWaits(cfg, torder, act, sta, objs[j]);
    Df.EmptyInLine(l0, c);
    FlowInLine(w0, wops, w, j, l0, true);
    Df.InOrder(FlowOf(w0, wops, w, j, l0), c, KeepsStored(w0, wops, w, j));
  }

  lemma NothingWaits(cfg: Config, torder: seq<TaskId>, act: set<TaskId>, sta: seq<bool>, o: Obj)
    requires cfg.Ok() && |sta| == |cfg.cycphs| && S.AllTasks(torder, |cfg.ipriority|) && NoDup(torder) && Fresh(cfg, o) && o.Dtq?
    ensures var x := Dq.DtqState(Boot(cfg, torder, act, sta), o.items, o.sdata, o.rdata);
      x.s.cfg == cfg && x.items == [] && Dq.DtqOk(x, o.dc) && Df.Waiting(x, o.dc) == []
  {
    hide Inv, Boot;
    FreshOk(cfg, torder, act, sta, o);
    assert o.dc.sq in QueuesOf(o);
    NobodyWaits(cfg, torder, act, sta, o.dc.sq);
  }

  // ----- a memory pool -----

  ghost predicate IsMpf(w: World, j: nat) {
    j < |w.objs| && w.objs[j].Mpf?
  }

  function MpfAt(w: World, j: nat): Mp.MpfState
    requires j < |w.objs| && w.objs[j].Mpf?
  {
    Mp.MpfState(w.s, w.objs[j].pool, w.objs[j].blk)
  }

  /** Who gets and returns blocks in one step: by calls on the pool as when it is alone; whatever
      else happens, a block that the first waiting task gets is granted to it. */
  ghost function GrantStep(w: World, wop: WorldOp, j: nat, l: Mp.Holders): Mp.Holders
    requires WorldOk(w) && WorldEnabled(w, wop) && IsMpf(w, j) && l.x == MpfAt(w, j)
  {
    OneOk(w, j);
    var c := w.objs[j].mc;
    if wop.On? && wop.i == j then Mp.HoldersDo(l, c, wop.call.mop)
    else
      var x' := l.x.(s := WorldDo(w, wop).s);
      Mp.Granted(l, c, x', l.grants, Mp.Handed(l.x, x', c.q))
  }

  lemma GrantStepIs(w: World, wop: WorldOp, j: nat, l: Mp.Holders)
    requires WorldOk(w) && WorldEnabled(w, wop) && IsMpf(w, j) && l.x == MpfAt(w, j)
    ensures var w1 := WorldDo(w, wop);
      && WorldOk(w1) && IsMpf(w1, j) && w1.objs[j].mc == w.objs[j].mc && GrantStep(w, wop, j, l).x == MpfAt(w1, j)
    ensures var c := w.objs[j].mc;
      || GrantStep(w, wop, j, l) == l
      || exists op :: Mp.MpfOk(l.x, c) && Mp.MpfEnabled(l.x, c, op) && GrantStep(w, wop, j, l) == Mp.HoldersDo(l, c, op)
  {
    hide Inv, ShapeOk, Enabled, Do, Foreign, Mp.MpfOk, Mp.Handed;
    WorldStepKeeps(w, wop);
    StillOne(w, wop, j);
    OneOk(w, j);
    var c := w.objs[j].mc;
    if wop.On? && wop.i == j {
      assert Mp.MpfEnabled(l.x, c, wop.call.mop);
    } else {
      var kop := SeenFrom(w, wop, j);
      match kop
      case None => Mp.NothingHanded(l.x, c);
      case Some(op) => assert Mp.MpfEnabled(l.x, c, Mp.Other(op));
    }
  }

  ghost function HoldersOf(w: World, wops: seq<WorldOp>, w': World, j: nat, l: Mp.Holders): Mp.Holders
    requires WorldOk(w) && WorldRun(w, wops, w') && IsMpf(w, j) && l.x == MpfAt(w, j)
    decreases |wops|
  {
    if wops == [] then l
    else
      GrantStepIs(w, wops[0], j, l);
      HoldersOf(WorldDo(w, wops[0]), wops[1..], w', j, GrantStep(w, wops[0], j, l))
  }

  lemma {:induction false} OneHolder(w: World, wops: seq<WorldOp>, w': World, j: nat, l: Mp.Holders)
    requires WorldOk(w) && WorldRun(w, wops, w') && IsMpf(w, j) && l.x == MpfAt(w, j) && Mp.HeldOnce(l)
    ensures IsMpf(w', j) && HoldersOf(w, wops, w', j, l).x == MpfAt(w', j) && Mp.HeldOnce(HoldersOf(w, wops, w', j, l))
    decreases |wops|
  {
    hide WorldOk, WorldEnabled, WorldDo, GrantStep, Mp.MpfOk, Mp.MpfEnabled, Mp.HoldersDo, Mp.HeldOnce;
    if wops != [] {
      var l1 := GrantStep(w, wops[0], j, l);
      var c := w.objs[j].mc;
      GrantStepIs(w, wops[0], j, l);
      if l1 != l {
        var op :| Mp.MpfOk(l.x, c) && Mp.MpfEnabled(l.x, c, op) && l1 == Mp.HoldersDo(l, c, op);
        Mp.HoldersStep(l, c, op);
      }
      OneHolder(WorldDo(w, wops[0]), wops[1..], w', j, l1);
    }
  }

  /** From start-up on, in the company of any other objects: exactly the blocks of a memory pool
      that are in use are granted, each to one task. */
  lemma PoolHasOneHolder(cfg: Config, torder: seq<TaskId>, act: set<TaskId>, sta: seq<bool>, objs: seq<Obj>, wops: seq<WorldOp>, w: World, j: nat)
    requires cfg.Ok() && |sta| == |cfg.cycphs| && S.AllTasks(torder, |cfg.ipriority|) && NoDup(torder)
    requires AllApart(objs) && forall i :: 0 <= i < |objs| ==> Fresh(cfg, objs[i])
    requires WorldRun(World(Boot(cfg, torder, act, sta), objs), wops, w) && j < |objs| && objs[j].Mpf?
    ensures WorldOk(World(Boot(cfg, torder, act, sta), objs)) && IsMpf(w, j)
    ensures var w0 := World(Boot(cfg, torder, act, sta), objs);
      var l := HoldersOf(w0, wops, w, j, Mp.Holders(MpfAt(w0, j), map[], 0));
      l.x == MpfAt(w, j) && Mp.HeldOnce(l)
  {
    hide Inv, Boot, WorldRun, WorldOk, ObjOk, QueuesOf, HoldersOf, Mp.HeldOnce;
    var w0 := World(Boot(cfg, torder, act, sta), objs);
    BootWorldOk(cfg, torder, act, sta, objs);
    Mp.NothingHeld(Mp.Holders(MpfAt(w0, j), map[], 0));
    OneHolder(w0, wops, w, j, Mp.Holders(MpfAt(w0, j), map[], 0));
  }
}
