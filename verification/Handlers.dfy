/**
 alarm.c and cyclic.c: starting and stopping of alarm and cyclic handlers.
 */
module Handlers {
  import opened WordTime
  import opened HeapLinks
  import opened SystemTime
  import opened KernelState
  import opened KernelRuns
  import opened Capacity
  import opened TimeEvent
  import opened Kernels
  import opened Waiting
  import opened TaskManage
  import S = KernelSpec

  /** A handler runs if and only if its time event is registered; there is room for it if not. */
  lemma HandlerFacts(s: State)
    requires CoreOk(s)
    ensures |s.cyc| == |s.cfg.cyctim| == |s.cfg.cycphs| && |s.alm| == s.cfg.nalm && s.cfg.time.Ok()
    ensures forall c: nat :: c < |s.cyc| ==> (s.cyc[c] <==> CycTimer(c) in s.pending)
    ensures forall c: nat :: c < |s.cyc| ==> 0 < s.cfg.cyctim[c] <= s.cfg.time.tmax && s.cfg.cycphs[c] <= s.cfg.time.tmax
    ensures forall a: nat :: a < |s.alm| ==> (s.alm[a] <==> AlmTimer(a) in s.pending)
    ensures |s.pending| <= |s.cfg.ipriority| + |s.cfg.cyctim| + s.cfg.nalm
    ensures forall c: nat :: c < |s.cyc| && !s.cyc[c] ==> |s.pending| < |s.cfg.ipriority| + |s.cfg.cyctim| + s.cfg.nalm
    ensures forall a: nat :: a < |s.alm| && !s.alm[a] ==> |s.pending| < |s.cfg.ipriority| + |s.cfg.cyctim| + s.cfg.nalm
  {
    hide QueuesOk, Sorted, ClockOk;
    FewTimers(s.tcb, s.cyc, s.alm, s.pending);
    forall c: nat | c < |s.cyc|
      ensures s.cyc[c] <==> CycTimer(c) in s.pending
      ensures !s.cyc[c] ==> |s.pending| < |s.cfg.ipriority| + |s.cfg.cyctim| + s.cfg.nalm
    {
      assert CycTimer(c) in s.pending <==> Armed(s.tcb, s.cyc, s.alm, CycTimer(c));
      if !s.cyc[c] {
        RoomFor(s, CycTimer(c));
      }
    }
    forall a: nat | a < |s.alm|
      ensures s.alm[a] <==> AlmTimer(a) in s.pending
      ensures !s.alm[a] ==> |s.pending| < |s.cfg.ipriority| + |s.cfg.cyctim| + s.cfg.nalm
    {
      assert AlmTimer(a) in s.pending <==> Armed(s.tcb, s.cyc, s.alm, AlmTimer(a));
      if !s.alm[a] {
        RoomFor(s, AlmTimer(a));
      }
    }
  }

  /** tmevtb_dequeue. */
  method Dequeue(k: Kernel, e: Event)
    requires k.Timing() && e in k.tm.pending
    modifies k.tm.heap, k.tm`blocks, k.tm`times, k.tm`lastIndex, k.tm`pending
    ensures k.Timing() && k.tm.pending == old(k.tm.pending) - {e}
    ensures |k.tm.pending| < |old(k.tm.pending)|
  {
    hide TimeEvents.Valid;
    k.tm.Delete(e);
    ghost var was := old(k.tm.pending);
    assert k.tm.pending.Keys == was.Keys - {e};
    assert |was.Keys| == |was| && |k.tm.pending.Keys| == |k.tm.pending|;
  }

  method SetCycsta(k: Kernel, c: nat, sta: bool)
    requires k.Timing() && c < |k.cycsta|
    modifies k`cycsta
    ensures k.Timing() && k.cycsta == old(k.cycsta)[c := sta]
  {
    hide TimeEvents.Valid;
    k.cycsta := k.cycsta[c := sta];
  }

  /** The common part of sta_alm and ista_alm. */
  method StartAlarm(k: Kernel, a: nat, almtim: nat)
    requires k.Rep() && CoreOk(k.View()) && a < |k.almsta| && almtim <= k.cfg.time.tmax
    modifies k`almsta, k.tm.heap, k.tm`blocks, k.tm`times, k.tm`lastIndex, k.tm`pending
    ensures k.Rep() && k.View() == S.StartAlarm(old(k.View()), a, almtim)
  {
    hide CoreOk, Kernel.SchedRep, Kernel.Timing;
    HandlerFacts(k.View());
    if k.almsta[a] {
      Dequeue(k, AlmTimer(a));
    } else {
      k.almsta := k.almsta[a := true];
    }
    EnqueueTimer(k, AlmTimer(a), almtim, CallAlmhdr(a));
  }

  /** The common part of stp_alm and istp_alm. */
  method StopAlarm(k: Kernel, a: nat)
    requires k.Rep() && CoreOk(k.View()) && a < |k.almsta|
    modifies k`almsta, k.tm.heap, k.tm`blocks, k.tm`times, k.tm`lastIndex, k.tm`pending
    ensures k.Rep() && k.View() == S.StopAlarm(old(k.View()), a)
  {
    hide CoreOk, Kernel.SchedRep, Kernel.Timing;
    HandlerFacts(k.View());
    if k.almsta[a] {
      k.almsta := k.almsta[a := false];
      Dequeue(k, AlmTimer(a));
    } else {
      assert k.tm.pending - {AlmTimer(a)} == k.tm.pending;
    }
  }

  /** sta_alm, and ista_alm if `fromInt`. */
  method StaAlm(k: Kernel, almid: int, almtim: nat, fromInt: bool) returns (ercd: Ercd)
    requires k.Rep() && Inv(k.View())
    modifies k`almsta, k.tm.heap, k.tm`blocks, k.tm`times, k.tm`lastIndex, k.tm`pending
    ensures k.Rep() && Inv(k.View())
    ensures S.Result(k.View(), S.Returns(ercd)) == S.StaAlm(old(k.View()), almid, almtim, fromInt)
  {
    hide CoreOk, DispatchOk, Kernel.Timing, Kernel.SchedRep, S.StartAlarm;
    AlarmCallsKeep(k.View(), almid, almtim, fromInt);
    TaskContext(k.View());
    var ctx := SenseContext(k);
    if if fromInt then !k.intctx else ctx {
      return E_CTX;
    }
    if !(1 <= almid <= |k.almsta|) {
      return E_ID;
    }
    if almtim > k.cfg.time.tmax {
      return E_PAR;
    }
    StartAlarm(k, almid - 1, almtim);
    return E_OK;
  }

  /** stp_alm, and istp_alm if `fromInt`. */
  method StpAlm(k: Kernel, almid: int, fromInt: bool) returns (ercd: Ercd)
    requires k.Rep() && Inv(k.View())
    modifies k`almsta, k.tm.heap, k.tm`blocks, k.tm`times, k.tm`lastIndex, k.tm`pending
    ensures k.Rep() && Inv(k.View())
    ensures S.Result(k.View(), S.Returns(ercd)) == S.StpAlm(old(k.View()), almid, fromInt)
  {
    hide CoreOk, DispatchOk, Kernel.Timing, Kernel.SchedRep, S.StopAlarm;
    AlarmCallsKeep(k.View(), almid, 0, fromInt);
    TaskContext(k.View());
    var ctx := SenseContext(k);
    if if fromInt then !k.intctx else ctx {
      return E_CTX;
    }
    if !(1 <= almid <= |k.almsta|) {
      return E_ID;
    }
    StopAlarm(k, almid - 1);
    return E_OK;
  }

  /** tmevtb_enqueue_cyc. */
  method EnqueueCyc(k: Kernel, c: nat, evttim: nat, ghost t: nat)
    requires k.Timing() && c < |k.cycsta| && CycTimer(c) !in k.tm.pending
    requires |k.tm.pending| < |k.cfg.ipriority| + |k.cfg.cyctim| + k.cfg.nalm
    requires evttim == Word(t, k.cfg.time.w) && k.tm.min <= t < k.tm.min + k.cfg.time.w
    modifies k`evttim, k.tm.heap, k.tm`blocks, k.tm`times, k.tm`lastIndex, k.tm`pending
    ensures k.Timing()
    ensures k.tm.pending == old(k.tm.pending)[CycTimer(c) := Pending(t, CallCychdr(c))]
  {
    hide TimeEvents.Valid;
    k.tm.EnqueueEvttim(CycTimer(c), evttim, CallCychdr(c), t);
    k.evttim := k.evttim[c := evttim];
  }

  /** sta_cyc: the first activation is the phase after the base time. */
  method StaCyc(k: Kernel, cycid: int) returns (ercd: Ercd)
    requires k.Rep() && Inv(k.View())
    modifies k`cycsta, k`evttim, k.tm.heap, k.tm`blocks, k.tm`times, k.tm`lastIndex, k.tm`pending
    ensures k.Rep() && Inv(k.View())
    ensures S.Result(k.View(), S.Returns(ercd)) == S.StaCyc(old(k.View()), cycid)
  {
    hide CoreOk, DispatchOk, Kernel.SchedRep, Kernel.Timing;
    CyclicCallsKeep(k.View(), cycid);
    TaskContext(k.View());
    Shaped(k.View());
    var ctx := SenseContext(k);
    if ctx {
      return E_CTX;
    }
    if !(1 <= cycid <= |k.cycsta|) {
      return E_ID;
    }
    RestartCyclic(k, cycid - 1);
    return E_OK;
  }

  /** A relative time counts from the base time, as words and as numbers. */
  lemma RelativeTime(k: Kernel, time: nat)
    requires k.Timing() && time <= k.cfg.time.tmax
    ensures k.cfg.time.Ok()
    ensures Word(k.tm.Base() + time, k.cfg.time.w) == Word(BaseTime(k.cfg.time, k.tm.ticks) + time, k.cfg.time.w)
    ensures k.tm.min <= BaseTime(k.cfg.time, k.tm.ticks) + time < k.tm.min + k.cfg.time.w
  {
    hide BaseTime, TickTime, Kernel.CycRep;
    k.tm.BaseFits();
    WordAdd(BaseTime(k.cfg.time, k.tm.ticks), time, k.cfg.time.w);
  }

  /** The locked part of sta_cyc. */
  method RestartCyclic(k: Kernel, c: nat)
    requires k.Rep() && CoreOk(k.View()) && c < |k.cycsta| == |k.cfg.cycphs|
    modifies k`cycsta, k`evttim, k.tm.heap, k.tm`blocks, k.tm`times, k.tm`lastIndex, k.tm`pending
    ensures k.Rep()
    ensures k.cycsta == old(k.cycsta)[c := true]
    ensures k.tm.pending == old(k.tm.pending)[CycTimer(c) :=
      Pending(BaseTime(k.cfg.time, k.tm.ticks) + k.cfg.cycphs[c], CallCychdr(c))]
  {
    hide CoreOk, Kernel.SchedRep, Kernel.Timing, BaseTime, TickTime;
    HandlerFacts(k.View());
    if k.cycsta[c] {
      Dequeue(k, CycTimer(c));
    } else {
      SetCycsta(k, c, true);
    }
    RelativeTime(k, k.cfg.cycphs[c]);
    EnqueueCyc(k, c, Word(k.tm.Base() + k.cfg.cycphs[c], k.cfg.time.w), BaseTime(k.cfg.time, k.tm.ticks) + k.cfg.cycphs[c]);
  }

  /** stp_cyc. */
  method StpCyc(k: Kernel, cycid: int) returns (ercd: Ercd)
    requires k.Rep() && Inv(k.View())
    modifies k`cycsta, k.tm.heap, k.tm`blocks, k.tm`times, k.tm`lastIndex, k.tm`pending
    ensures k.Rep() && Inv(k.View())
    ensures S.Result(k.View(), S.Returns(ercd)) == S.StpCyc(old(k.View()), cycid)
  {
    hide CoreOk, DispatchOk, Kernel.SchedRep, Kernel.Timing;
    CyclicCallsKeep(k.View(), cycid);
    TaskContext(k.View());
    Shaped(k.View());
    var ctx := SenseContext(k);
    if ctx {
      return E_CTX;
    }
    if !(1 <= cycid <= |k.cycsta|) {
      return E_ID;
    }
    StopCyclic(k, cycid - 1);
    return E_OK;
  }

  /** The locked part of stp_cyc. */
  method StopCyclic(k: Kernel, c: nat)
    requires k.Rep() && CoreOk(k.View()) && c < |k.cycsta|
    modifies k`cycsta, k.tm.heap, k.tm`blocks, k.tm`times, k.tm`lastIndex, k.tm`pending
    ensures k.Rep()
    ensures k.cycsta == old(k.cycsta)[c := false]
    ensures k.tm.pending == old(k.tm.pending) - {CycTimer(c)}
  {
    hide CoreOk, Kernel.SchedRep, Kernel.Timing;
    HandlerFacts(k.View());
    if k.cycsta[c] {
      SetCycsta(k, c, false);
      Dequeue(k, CycTimer(c));
    } else {
      assert k.tm.pending - {CycTimer(c)} == k.tm.pending;
    }
  }

  lemma TimeIsOk(k: Kernel)
    requires k.Timing()
    ensures k.cfg.time.Ok() && k.tm.w == k.cfg.time.w && |k.evttim| == |k.cycsta|
  {
    hide TimeEvents.Valid;
  }

  /** call_cychdr, up to where interrupts are let in: the handler is registered again, one
      period after the time it was due. */
  method NextPeriod(k: Kernel, c: nat, ghost t: nat)
    requires k.Timing() && c < |k.cycsta| == |k.cfg.cyctim| && CycTimer(c) !in k.tm.pending
    requires |k.tm.pending| < |k.cfg.ipriority| + |k.cfg.cyctim| + k.cfg.nalm
    requires k.evttim[c] == Word(t, k.cfg.time.w) && k.tm.min <= t && t + k.cfg.cyctim[c] < k.tm.min + k.cfg.time.w
    modifies k`evttim, k.tm.heap, k.tm`blocks, k.tm`times, k.tm`lastIndex, k.tm`pending
    ensures k.Timing()
    ensures k.tm.pending == old(k.tm.pending)[CycTimer(c) := Pending(t + k.cfg.cyctim[c], CallCychdr(c))]
  {
    hide TimeEvents.Valid, Word;
    TimeIsOk(k);
    WordAdd(t, k.cfg.cyctim[c], k.cfg.time.w);
    EnqueueCyc(k, c, Word(k.evttim[c] + k.cfg.cyctim[c], k.cfg.time.w), t + k.cfg.cyctim[c]);
  }
}
