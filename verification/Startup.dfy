/**
 The start of the kernel: initialize_task of task.c, initialize_cyclic of cyclic.c, and the
 first dispatch. They lead to the state from which all runs start.
 */
module Startup {
  import opened Common
  import opened WordTime
  import opened HeapLinks
  import opened KernelState
  import opened KernelInv
  import opened KernelRuns
  import opened KernelFacts
  import opened Bitmap
  import opened ReadyQueue
  import opened Kernels
  import opened Task
  import opened Waiting
  import opened Handlers
  import S = KernelSpec

  /** The next task in order is activated after those before it. */
  lemma {:induction false} ActivateNext(s: State, torder: seq<TaskId>, act: set<TaskId>, i: nat)
    requires S.AllTasks(torder, |s.tcb|) && i < |torder|
    ensures S.AllTasks(torder[..i], |s.tcb|) && S.AllTasks(torder[..i + 1], |s.tcb|)
    ensures var s1 := ActivateAll(s, torder[..i], act);
      && |s1.tcb| == |s.tcb|
      && ActivateAll(s, torder[..i + 1], act) == if torder[i] in act then S.MakeActive(s1, torder[i]) else s1
    decreases i
  {
    hide S.Leave, S.Enter;
    if i == 0 {
      assert torder[..1][1..] == [];
      assert torder[..0] == [];
    } else {
      var s1 := if torder[0] in act then S.MakeActive(s, torder[0]) else s;
      assert torder[..i][1..] == torder[1..][..i - 1] && torder[..i + 1][1..] == torder[1..][..i];
      ActivateNext(s1, torder[1..], act, i - 1);
    }
  }

  /** What is known of the tasks while they are activated in order: those that are not reached
      yet are dormant, and in no queue. */
  lemma {:induction false} ActivateFacts(s: State, torder: seq<TaskId>, act: set<TaskId>, i: nat)
    requires CoreOk(s) && S.AllTasks(torder, |s.tcb|) && NoDup(torder) && i <= |torder|
    requires forall t: nat :: t < |s.tcb| ==> s.tcb[t].tstat.Dormant()
    ensures S.AllTasks(torder[..i], |s.tcb|)
    ensures var s' := ActivateAll(s, torder[..i], act);
      && CoreOk(s') && s' == s.(tcb := s'.tcb, queue := s'.queue) && |s'.tcb| == |s.tcb|
      && forall t: nat :: t < |s.tcb| && t !in torder[..i] ==> s'.tcb[t] == s.tcb[t]
    decreases i
  {
    hide CoreOk, S.MakeActive;
    if i == 0 {
      assert torder[..0] == [];
    } else {
      ActivateNext(s, torder, act, i - 1);
      ActivateFacts(s, torder, act, i - 1);
      var s1 := ActivateAll(s, torder[..i - 1], act);
      var t := torder[i - 1];
      assert t !in torder[..i - 1];
      assert torder[..i] == torder[..i - 1] + [t];
      MakeActiveKeeps(s1, t);
      ActivateFrame(s1, t);
    }
  }

  lemma ActivateFrame(s: State, t: TaskId)
    requires t < |s.tcb|
    ensures var s' := S.MakeActive(s, t);
      s' == s.(tcb := s.tcb[t := s.tcb[t].(tstat := TS_RUNNABLE)], queue := s'.queue)
  {
    hide S.Leave, S.Enter;
  }

  /** initialize_task. */
  method InitializeTask(k: Kernel, torder: seq<TaskId>, act: set<TaskId>, ghost s: State)
    requires CoreOk(s) && s.cfg == k.cfg && |k.tcb| == |s.tcb|
    requires forall t: nat :: t < |s.tcb| ==> s.tcb[t] == Tcb(TS_DORMANT, k.cfg.ipriority[t], false, false, Wercd(E_OK), 0)
    requires forall t: nat :: t < |k.tcb| ==> k.tcb[t] == Tcb(TS_DORMANT, 0, false, false, Wercd(E_OK), 0)
    requires k.queue == s.queue && forall q :: q in s.queue ==> s.queue[q] == []
    requires S.AllTasks(torder, |s.tcb|) && NoDup(torder) && forall t: nat :: t < |s.tcb| ==> t in torder
    modifies k`runtsk, k`schedtsk, k`reqflg, k`ipmflg, k`disdsp, k`dspflg, k`readyPrimap, k`tcb, k`queue
    ensures k.SchedRep()
    ensures var s' := ActivateAll(s, torder, act); k.tcb == s'.tcb && k.queue == s'.queue
    ensures k.runtsk == None && !k.reqflg && k.ipmflg && !k.disdsp && k.dspflg
  {
    hide CoreOk, Mirrors, PriOk, Sched, ActivateAll, Kernel.SchedRep;
    k.runtsk := None;
    k.schedtsk := None;
    k.reqflg := false;
    k.ipmflg := true;
    k.disdsp := false;
    k.dspflg := true;
    k.readyPrimap := 0;
    NothingReady(s, k.tcb);
    EmptyScheduling(k);
    ActivateFacts(s, torder, act, 0);
    NoneActivated(s, torder, act);
    for i := 0 to |torder|
      invariant k.Scheduling() && k.dspflg && |k.tcb| == |s.tcb|
      invariant S.AllTasks(torder[..i], |s.tcb|)
      invariant var s' := ActivateAll(s, torder[..i], act);
        && |s'.tcb| == |s.tcb| && k.queue == s'.queue
        && forall t: nat :: t < |s.tcb| ==> k.tcb[t] == if t in torder[..i] then s'.tcb[t] else Tcb(TS_DORMANT, 0, false, false, Wercd(E_OK), 0)
      invariant k.runtsk == None && !k.reqflg && k.ipmflg && !k.disdsp && k.dspflg
    {
      var j := torder[i];
      ActivateFacts(s, torder, act, i);
      ActivateNext(s, torder, act, i);
      ghost var s1 := ActivateAll(s, torder[..i], act);
      assert j !in torder[..i];
      assert torder[..i + 1] == torder[..i] + [j];
      InitTask(k, j, j in act, s1);
    }
    assert torder[..|torder|] == torder;
    assert k.tcb == ActivateAll(s, torder, act).tcb;
  }

  /** One turn of the loop of initialize_task. */
  method InitTask(k: Kernel, j: TaskId, active: bool, ghost s1: State)
    requires k.Scheduling() && CoreOk(s1) && s1.cfg == k.cfg && |s1.tcb| == |k.tcb| && j < |k.tcb| && k.queue == s1.queue
    requires s1.tcb[j] == Tcb(TS_DORMANT, k.cfg.ipriority[j], false, false, Wercd(E_OK), 0)
    requires k.tcb[j] == Tcb(TS_DORMANT, 0, false, false, Wercd(E_OK), 0)
    modifies k`tcb, k`queue, k`readyPrimap, k`schedtsk
    ensures k.Scheduling()
    ensures var s2 := if active then S.MakeActive(s1, j) else s1;
      k.tcb == old(k.tcb)[j := s2.tcb[j]] && k.queue == s2.queue
  {
    hide CoreOk, Mirrors, PriOk, Sched, S.MakeActive;
    TaskFacts(s1, j);
    DormantTask(s1, j);
    ghost var tcb := k.tcb;
    PriElsewhere(k.queue, k.tcb, j, s1.tcb[j]);
    k.tcb := k.tcb[j := k.tcb[j].(actque := false)];
    MakeDormant(k, j);
    assert k.tcb == tcb[j := s1.tcb[j]];
    if active {
      MakeActiveIs(s1, j);
      var _ := MakeActive(k, j);
    }
  }

  lemma DormantTask(s: State, j: TaskId)
    requires CoreOk(s) && j < |s.tcb|
    ensures j < |s.cfg.ipriority| && s.cfg.ipriority[j] < TNUM_TPRI
  {
    hide QueuesOk, TimersOk, Sorted, ClockOk;
  }

  lemma NothingReady(s: State, tcb: seq<Tcb>)
    requires CoreOk(s) && forall q :: q in s.queue ==> s.queue[q] == []
    ensures HasReady(s.queue) && PriOk(s.queue, tcb) && Mirrors(0, s.queue) && Sched(s.queue) == None
  {
    hide QueuesOk, TimersOk, Sorted, ClockOk;
    SchedIs(s.queue, TNUM_TPRI);
    forall p: nat | p < TNUM_TPRI
      ensures !IsSet(0, p)
    {
      EmptyHasNone(p);
    }
  }

  lemma EmptyScheduling(k: Kernel)
    requires HasReady(k.queue) && PriOk(k.queue, k.tcb) && Mirrors(k.readyPrimap, k.queue) && Sched(k.queue) == None && k.schedtsk == None
    ensures k.Scheduling()
  {
  }

  lemma NoneActivated(s: State, torder: seq<TaskId>, act: set<TaskId>)
    ensures S.AllTasks(torder[..0], |s.tcb|) && ActivateAll(s, torder[..0], act) == s
  {
  }

  /** The first `n` cyclic handlers are set up: those with TA_STA run. */
  ghost predicate Started(cfg: Config, cycsta: seq<bool>, pending: map<Event, Pending>, sta: seq<bool>, n: nat)
    requires n <= |sta| == |cfg.cycphs|
  {
    && |cycsta| == |sta| && cycsta[..n] == sta[..n]
    && (forall e :: e in pending <==> e.CycTimer? && e.cyc < n && sta[e.cyc])
    && (forall e :: e in pending ==> e.CycTimer? && e.cyc < n && pending[e] == Pending(cfg.cycphs[e.cyc], CallCychdr(e.cyc)))
    && |pending| <= n
  }

  lemma MapGrows(m: map<Event, Pending>, e: Event, p: Pending)
    ensures |m[e := p]| <= |m| + 1
  {
    assert m[e := p].Keys == m.Keys + {e};
    assert |m[e := p].Keys| == |m[e := p]| && |m.Keys| == |m|;
  }

  lemma StartedNext(cfg: Config, cycsta: seq<bool>, pending: map<Event, Pending>, sta: seq<bool>, n: nat)
    requires n < |sta| == |cfg.cycphs| && Started(cfg, cycsta, pending, sta, n)
    ensures |cycsta| == |sta| && |pending| <= n && CycTimer(n) !in pending
    ensures Started(cfg, cycsta[n := sta[n]],
                    if sta[n] then pending[CycTimer(n) := Pending(cfg.cycphs[n], CallCychdr(n))] else pending, sta, n + 1)
  {
    MapGrows(pending, CycTimer(n), Pending(cfg.cycphs[n], CallCychdr(n)));
    assert sta[..n + 1] == sta[..n] + [sta[n]];
    assert cycsta[n := sta[n]][..n + 1] == cycsta[..n] + [sta[n]];
  }

  /** Phases lie within reach when the clock starts. */
  lemma PhaseInReach(cfg: Config, c: nat)
    requires cfg.Ok() && c < |cfg.cycphs|
    ensures cfg.cycphs[c] < cfg.time.w && |cfg.cycphs| == |cfg.cyctim|
  {
  }

  /** initialize_cyclic: handlers with TA_STA start, and are due for the first time when their
      phase has passed. */
  method InitializeCyclic(k: Kernel, sta: seq<bool>)
    requires k.Timing() && k.cfg.Ok() && k.tm.pending == map[] && k.tm.min == 0
    requires |sta| == |k.cfg.cycphs| == |k.cycsta|
    modifies k`cycsta, k`evttim, k.tm.heap, k.tm`blocks, k.tm`times, k.tm`lastIndex, k.tm`pending
    ensures k.Timing() && Started(k.cfg, k.cycsta, k.tm.pending, sta, |sta|)
  {
    hide Kernel.Timing, Started, Word;
    NoneStarted(k.cfg, k.cycsta, sta);
    for i := 0 to |sta|
      invariant k.Timing() && Started(k.cfg, k.cycsta, k.tm.pending, sta, i)
    {
      PhaseInReach(k.cfg, i);
      StartedNext(k.cfg, k.cycsta, k.tm.pending, sta, i);
      if sta[i] {
        SetCycsta(k, i, true);
        EnqueueCyc(k, i, Word(k.cfg.cycphs[i], k.cfg.time.w), k.cfg.cycphs[i]);
      } else {
        SetCycsta(k, i, false);
      }
    }
  }

  lemma NoneStarted(cfg: Config, cycsta: seq<bool>, sta: seq<bool>)
    requires |sta| == |cfg.cycphs| == |cycsta|
    ensures Started(cfg, cycsta, map[], sta, 0)
  {
  }

  lemma StartedIs(cfg: Config, cycsta: seq<bool>, pending: map<Event, Pending>, sta: seq<bool>)
    requires cfg.Ok() && |sta| == |cfg.cycphs| && Started(cfg, cycsta, pending, sta, |sta|)
    ensures cycsta == sta && pending == Empty(cfg, sta).pending
  {
    assert cycsta[..|sta|] == cycsta && sta[..|sta|] == sta;
    SamePending(pending, Empty(cfg, sta).pending);
  }

  lemma SamePending(a: map<Event, Pending>, b: map<Event, Pending>)
    requires (forall e :: e in a <==> e in b) && forall e :: e in a ==> a[e] == b[e]
    ensures a == b
  {
  }

  /** The state before any task is activated, in parts. */
  lemma EmptyFacts(cfg: Config, sta: seq<bool>)
    requires cfg.Ok() && |sta| == |cfg.cycphs|
    ensures var s := Empty(cfg, sta);
      && s.cfg == cfg && |s.tcb| == |cfg.ipriority| && s.cyc == sta && s.alm == seq(cfg.nalm, _ => false)
      && s.queue == (map q | q in QueueNames(cfg) :: [])
      && (forall q :: q in s.queue ==> s.queue[q] == [])
      && (forall t: nat :: t < |s.tcb| ==> s.tcb[t] == Tcb(TS_DORMANT, cfg.ipriority[t], false, false, Wercd(E_OK), 0))
      && s.ticks == 0 && s.min == 0 && !s.ticking && s.runtsk == None && !s.reqflg && s.ipmflg && !s.disdsp && s.dspflg && !s.intctx
  {
  }

  /** initialize_object and start_dispatch, after the variables have been made. */
  method InitializeObject(k: Kernel, torder: seq<TaskId>, act: set<TaskId>, sta: seq<bool>, ghost s: State)
    requires k.Timing() && k.cfg.Ok() && |sta| == |k.cfg.cycphs| == |k.cycsta| && s == Empty(k.cfg, sta)
    requires k.tm.pending == map[] && k.tm.ticks == 0 && k.tm.min == 0 && !k.intctx && !k.ticking
    requires |k.tcb| == |s.tcb| && k.queue == s.queue && k.almsta == s.alm
    requires forall t: nat :: t < |k.tcb| ==> k.tcb[t] == Tcb(TS_DORMANT, 0, false, false, Wercd(E_OK), 0)
    requires S.AllTasks(torder, |s.tcb|) && NoDup(torder) && forall t: nat :: t < |s.tcb| ==> t in torder
    modifies k`runtsk, k`schedtsk, k`reqflg, k`ipmflg, k`disdsp, k`dspflg, k`readyPrimap, k`tcb, k`queue
    modifies k`cycsta, k`evttim, k.tm.heap, k.tm`blocks, k.tm`times, k.tm`lastIndex, k.tm`pending
    ensures k.Rep() && k.View() == S.Dispatch(ActivateAll(s, torder, act))
  {
    hide CoreOk, Kernel.SchedRep, Kernel.Timing, Started, Sched, ActivateAll, Empty;
    EmptyOk(k.cfg, sta);
    EmptyFacts(k.cfg, sta);
    NobodyYet(s, torder);
    ActivateAllKeeps(s, torder, act);
    InitializeTask(k, torder, act, s);
    InitializeCyclic(k, sta);
    StartedIs(k.cfg, k.cycsta, k.tm.pending, sta);
    DispatchFirst(k);
  }

  lemma NobodyYet(s: State, torder: seq<TaskId>)
    requires S.AllTasks(torder, |s.tcb|) && forall t: nat :: t < |s.tcb| ==> s.tcb[t].tstat.Dormant()
    ensures forall t :: t in torder ==> t < |s.tcb| && s.tcb[t].tstat.Dormant()
  {
  }

  /** start_kernel: from the tables that the configurator generates to the first dispatch. */
  method StartKernel(cfg: Config, torder: seq<TaskId>, act: set<TaskId>, sta: seq<bool>) returns (k: Kernel)
    requires cfg.Ok() && |sta| == |cfg.cycphs|
    requires S.AllTasks(torder, |cfg.ipriority|) && NoDup(torder) && forall t: nat :: t < |cfg.ipriority| ==> t in torder
    ensures fresh(k) && fresh(k.tm) && fresh(k.tm.heap)
    ensures k.Rep() && Inv(k.View())
    ensures k.View() == Boot(cfg, torder, act, sta)
  {
    hide Inv, Kernel.SchedRep, Kernel.Timing, ActivateAll, Empty;
    k := new Kernel(cfg);
    EmptyFacts(cfg, sta);
    BootOk(cfg, torder, act, sta);
    FreshTiming(k);
    InitializeObject(k, torder, act, sta, Empty(cfg, sta));
  }

  lemma FreshTiming(k: Kernel)
    requires k.cfg.Ok() && k.tm.Valid() && k.tm.cfg == k.cfg.time && k.tm.pending == map[] && |k.evttim| == |k.cycsta|
    requires k.tm.heap.Length == |k.cfg.ipriority| + |k.cfg.cyctim| + k.cfg.nalm
    ensures k.Timing()
  {
  }

  /** start_dispatch. */
  method DispatchFirst(k: Kernel)
    requires k.SchedRep()
    modifies k`runtsk
    ensures k.SchedRep() && k.runtsk == Sched(k.queue)
  {
    hide Mirrors;
    DispatchNow(k);
  }
}
