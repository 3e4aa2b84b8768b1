/**
 The three things that service calls on objects do to tasks: the first task in a wait queue
 gets what it waits for, the running task joins a wait queue, all tasks leave one. And what
 other steps of the kernel leave of a wait queue.
 */
module ObjectSteps {
  import opened Common
  import opened Subsequence
  import opened KernelState
  import opened KernelSpec
  import opened KernelInv
  import opened KernelRuns
  import opened KernelFacts
  import opened ReadyQueue
  import opened WaitSteps

  /** May a call be made, from a task or from an interrupt handler? */
  predicate InContext(s: State, fromInt: bool) {
    if fromInt then s.intctx else InTask(s)
  }

  /** The first task in `q` gets what it waits for. */
  function HandOver(s: State, q: QName, fromInt: bool): State
    requires q in s.queue && AllTasks(s.queue[q], |s.tcb|) && s.queue[q] != []
  {
    if fromInt then IEndWaits(s, [s.queue[q][0]]) else EndWaits(s, [s.queue[q][0]], E_OK)
  }

  /** The wait queues but `q` are as before, and so are the tasks but `ts`. */
  ghost predicate Elsewhere(s: State, s': State, q: QName, ts: set<TaskId>) {
    && s'.cfg == s.cfg && s'.queue.Keys == s.queue.Keys && |s'.tcb| == |s.tcb|
    && (forall p :: p in s.queue && p.Wait? && p != q ==> s'.queue[p] == s.queue[p])
    && (forall t: nat :: t < |s.tcb| && t !in ts ==> s'.tcb[t] == s.tcb[t])
  }

  /** The queue of an object, in a state that is in order. */
  lemma ObjectQueue(s: State, q: QName)
    requires Inv(s) && q in s.cfg.queues
    ensures CoreOk(s) && ShapeOk(s) && s.cfg.time.Ok() && q.Wait? && q.cause >= RDTQ && q in s.queue && AllTasks(s.queue[q], |s.tcb|) && NoDup(s.queue[q])
    ensures AllWaiting(s, s.queue[q])
    ensures forall t: nat :: t < |s.tcb| ==> (t in s.queue[q] <==> WaitsIn(s.tcb[t], q))
    ensures forall t :: t in s.queue[q] ==> t < |s.tcb| && s.tcb[t].winfo.Tmevtb?
  {
    hide TimersOk, Sorted, ClockOk, DispatchOk;
    forall t: nat | t < |s.tcb|
      ensures t in s.queue[q] <==> WaitsIn(s.tcb[t], q)
    {
      assert TaskOk(s.cfg, t, s.tcb[t]);
    }
    forall i | 0 <= i < |s.queue[q]|
      ensures s.queue[q][i] < |s.tcb| && s.tcb[s.queue[q][i]].tstat.waiting && s.tcb[s.queue[q][i]].winfo.Tmevtb?
    {
      assert s.queue[q][i] in s.queue[q];
      assert TaskOk(s.cfg, s.queue[q][i], s.tcb[s.queue[q][i]]);
    }
  }

  lemma ReleaseFacts(s: State, q: QName, ercd: Ercd)
    requires CoreOk(s) && q in s.cfg.queues && q in s.queue && s.queue[q] != []
    ensures var t := s.queue[q][0];
      && t < |s.tcb| && s.tcb[t].tstat.waiting
      && var s' := Release(s, t, ercd);
      && CoreOk(s') && Elsewhere(s, s', q, {t})
      && s'.queue[q] == s.queue[q][1..] && !s'.tcb[t].tstat.waiting && s'.tcb[t].winfo == Wercd(ercd)
  {
    hide QueuesOk, Sorted, TimersOk, ClockOk, Release, Leave;
    HeadFacts(s, q);
    ReleaseIs(s, s.queue[q][0], ercd);
    ReleaseKeeps(s, s.queue[q][0], ercd);
  }

  lemma HandOverFacts(s: State, q: QName, fromInt: bool)
    requires Inv(s) && q in s.cfg.queues && q in s.queue && s.queue[q] != [] && InContext(s, fromInt)
    ensures AllTasks(s.queue[q], |s.tcb|)
    ensures var t := s.queue[q][0];
      var s' := HandOver(s, q, fromInt);
      && Inv(s') && Elsewhere(s, s', q, {t})
      && s'.queue[q] == s.queue[q][1..] && !s'.tcb[t].tstat.waiting && s'.tcb[t].winfo == Wercd(E_OK)
  {
    hide QueuesOk, Sorted, TimersOk, ClockOk, Release, Sched;
    ObjectQueue(s, q);
    var t := s.queue[q][0];
    ReleaseFacts(s, q, E_OK);
    assert AllWaiting(s, [t]);
    assert [t][1..] == [];
    var s1 := Release(s, t, E_OK);
    if fromInt {
      IEndWaitsKeeps(s, [t]);
      assert IEndWaits(IntEnd(s, Result(s1, Returns(E_OK))).s, [t][1..]) == IntEnd(s, Result(s1, Returns(E_OK))).s;
    } else {
      EndWaitsKeeps(s, [t], E_OK);
      assert ReleaseAll(s1, [t][1..], E_OK) == s1;
      assert ReleaseAll(s, [t], E_OK) == s1;
    }
  }

  /** The running task joins a wait queue, at the end if it is in FIFO order. */
  lemma JoinFacts(s: State, q: QName, tmout: int)
    requires Inv(s) && MayWait(s) && q in s.cfg.queues
    requires TMO_FEVR <= tmout <= s.cfg.time.tmax && tmout != TMO_POL
    ensures s.cfg.time.Ok() && q.Wait? && q in s.queue
    ensures var t := s.runtsk.value;
      var s' := WaitOn(s, q, tmout).s;
      && Inv(s') && Elsewhere(s, s', q, {t})
      && s'.tcb[t].tstat.waiting && s'.tcb[t].winfo.Tmevtb? && !s.tcb[t].tstat.waiting
      && t !in s.queue[q] && (forall x :: x in s'.queue[q] <==> x in s.queue[q] || x == t)
      && (q !in s.cfg.tpri ==> s'.queue[q] == s.queue[q] + [t])
  {
    hide QueuesOk, Sorted, TimersOk, ClockOk, MakeWait, Sched, Remove, InsertTpri;
    var t := s.runtsk.value;
    ObjectQueue(s, q);
    WaitOnKeeps(s, q, tmout);
    MakeWaitIs(s, q.cause, q.id, if tmout > 0 then Some(tmout) else None);
    var s' := WaitOn(s, q, tmout).s;
    ObjectQueue(s', q);
    assert WaitsIn(s'.tcb[t], q);
    forall x: nat
      ensures x in s'.queue[q] <==> x in s.queue[q] || x == t
    {
      if x < |s.tcb| && x != t {
        assert s'.tcb[x] == s.tcb[x];
      }
    }
  }

  /** All tasks leave a wait queue. */
  lemma {:induction false} FlushFacts(s: State, q: QName, ercd: Ercd)
    requires CoreOk(s) && q in s.cfg.queues && q in s.queue && AllTasks(s.queue[q], |s.tcb|)
    ensures var s' := ReleaseAll(s, s.queue[q], ercd);
      && CoreOk(s') && Elsewhere(s, s', q, set t | t in s.queue[q])
      && s'.queue[q] == []
      && forall t :: t in s.queue[q] ==> t < |s.tcb| && !s'.tcb[t].tstat.waiting && s'.tcb[t].winfo == Wercd(ercd)
    decreases |s.queue[q]|
  {
    hide CoreOk, Release;
    if s.queue[q] != [] {
      var t := s.queue[q][0];
      var s1 := Release(s, t, ercd);
      ReleaseFacts(s, q, ercd);
      QueueTasks(s, q);
      assert s1.queue[q] == s.queue[q][1..];
      assert forall i :: 0 <= i < |s1.queue[q]| ==> s1.queue[q][i] == s.queue[q][i + 1];
      assert t !in s1.queue[q];
      FlushFacts(s1, q, ercd);
      var s' := ReleaseAll(s1, s1.queue[q], ercd);
      assert s'.tcb[t] == s1.tcb[t];
      forall x | x in s.queue[q]
        ensures x < |s.tcb| && !s'.tcb[x].tstat.waiting && s'.tcb[x].winfo == Wercd(ercd)
      {
        assert x == t || x in s1.queue[q];
      }
    }
  }

  /** What a foreign step leaves of `q`: of the tasks that wait there some may have gone, but
      none has got what it waits for; the others wait on, in their order if it is FIFO. */
  ghost predicate OnlyErrors(s: State, s': State, q: QName) {
    && s'.cfg == s.cfg && q in s.queue && q in s'.queue && |s'.tcb| == |s.tcb|
    && (forall t :: t in s'.queue[q] ==> t in s.queue[q] && t < |s.tcb| && s'.tcb[t].winfo == s.tcb[t].winfo)
    && (forall t :: t in s.queue[q] && t !in s'.queue[q] ==>
      t < |s.tcb| && (s'.tcb[t].winfo == s.tcb[t].winfo || s'.tcb[t].winfo == Wercd(E_TMOUT) || s'.tcb[t].winfo == Wercd(E_RLWAI)))
    && (q !in s.cfg.tpri ==> Subseq(s'.queue[q], s.queue[q]))
  }

  lemma ForeignLeaves(s: State, op: Op, q: QName)
    requires Inv(s) && q in s.cfg.queues && Enabled(s, op) && Foreign(s, op, q)
    ensures Inv(Do(s, op)) && OnlyErrors(s, Do(s, op), q)
  {
    hide Inv, ShapeOk, Enabled, Do, Foreign, Kept;
    ObjectQueue(s, q);
    var s' := Do(s, op);
    StepKeeps(s, op);
    ForeignStep(s, op, q);
    if Kept(s, s', q, None) {
      KeptLeaves(s, s', q, None);
    } else {
      KeptLeaves(s, s', q, s.runtsk);
    }
  }

  lemma KeptLeaves(s: State, s': State, q: QName, who: Option<TaskId>)
    requires Inv(s) && Inv(s') && q in s.cfg.queues && Kept(s, s', q, who) && (who == None || who == s.runtsk)
    ensures OnlyErrors(s, s', q)
  {
    hide Inv, Subseq, Home;
    ObjectQueue(s, q);
    ObjectQueue(s', q);
    RunningElsewhere(s, q);
    if who.Some? {
      HomeIs(s'.tcb[who.value], q);
    }
    forall t: nat | t < |s.tcb| && (t in s.queue[q] || t in s'.queue[q])
      ensures t in s.queue[q] && (t in s'.queue[q] ==> s'.tcb[t].winfo == s.tcb[t].winfo)
      ensures t !in s'.queue[q] ==>
        s'.tcb[t].winfo == s.tcb[t].winfo || s'.tcb[t].winfo == Wercd(E_TMOUT) || s'.tcb[t].winfo == Wercd(E_RLWAI)
    {
      assert Some(t) != who ==> WaitKept(s.tcb[t], s'.tcb[t], q);
    }
  }

  lemma RunningElsewhere(s: State, q: QName)
    requires Inv(s) && q in s.cfg.queues && q in s.queue
    ensures s.runtsk.Some? ==> s.runtsk.value < |s.tcb| && s.runtsk.value !in s.queue[q]
  {
    hide TimersOk, Sorted, ClockOk, Sched;
  }

  lemma HomeIs(c: Tcb, q: QName)
    requires Home(c) != Some(q) && c.tstat.waiting && q.Wait? && q.cause >= RDTQ
    ensures !WaitsIn(c, q) || c.tstat.runnable
  {
  }

  // ----- tasks in the middle of a wait queue -----

  /** A task that waits in `q`, wherever, gets what it waits for or an error. */
  lemma MemberFacts(s: State, q: QName, t: TaskId, ercd: Ercd)
    requires CoreOk(s) && q in s.cfg.queues && q in s.queue && t in s.queue[q]
    ensures t < |s.tcb| && s.tcb[t].tstat.waiting && s.tcb[t].priority < TNUM_TPRI
    ensures HasReady(s.queue) && PriOk(s.queue, s.tcb) && NotReady(s.queue, t) && TimerOk(s.tcb[t], t, s.pending)
    ensures q.Wait? && Leave(s.queue, s.tcb[t], t) == s.queue[q := Remove(s.queue[q], t)]
    ensures var s' := Release(s, t, ercd);
      && CoreOk(s') && Elsewhere(s, s', q, {t})
      && s'.queue[q] == Remove(s.queue[q], t) && !s'.tcb[t].tstat.waiting && s'.tcb[t].winfo == Wercd(ercd)
  {
    hide Sorted, TimersOk, ClockOk, Release, Remove, PriOk;
    TaskFacts(s, t);
    ReadyFacts(s);
    WaitingFacts(s, t);
    ReleaseIs(s, t, ercd);
    ReleaseKeeps(s, t, ercd);
  }

  /** Several waits in `q` end with E_OK: from a task all at once, from an interrupt handler
      with a dispatch request for each. */
  function EndEach(s: State, ts: seq<TaskId>, fromInt: bool): State
    requires AllTasks(ts, |s.tcb|)
  {
    if fromInt then IEndWaits(s, ts) else ReleaseAll(s, ts, E_OK)
  }

  function EndOne(s: State, t: TaskId, fromInt: bool): State
    requires t < |s.tcb|
  {
    var r := Result(Release(s, t, E_OK), Returns(E_OK));
    if fromInt then IntEnd(s, r).s else r.s
  }

  lemma EndEachStep(s: State, ts: seq<TaskId>, fromInt: bool)
    requires AllTasks(ts, |s.tcb|)
    ensures ts == [] ==> EndEach(s, ts, fromInt) == s
    ensures ts != [] ==> |EndOne(s, ts[0], fromInt).tcb| == |s.tcb|
    ensures ts != [] ==> EndEach(s, ts, fromInt) == EndEach(EndOne(s, ts[0], fromInt), ts[1..], fromInt)
  {
    hide Leave, Enter, Sched;
  }

  lemma EndOneFacts(s: State, q: QName, t: TaskId, fromInt: bool)
    requires CoreOk(s) && q in s.cfg.queues && q in s.queue && t in s.queue[q]
    ensures t < |s.tcb|
    ensures var s' := EndOne(s, t, fromInt);
      && CoreOk(s') && Elsewhere(s, s', q, {t})
      && s'.queue[q] == Remove(s.queue[q], t) && !s'.tcb[t].tstat.waiting && s'.tcb[t].winfo == Wercd(E_OK)
  {
    hide QueuesOk, Sorted, TimersOk, ClockOk, Release, Sched, Remove;
    MemberFacts(s, q, t, E_OK);
    DispatchCore(Release(s, t, E_OK));
  }

  /** The tasks `ts` in `q`, which may be any there, are served; the others wait on. */
  lemma {:induction false} EndEachFacts(s: State, q: QName, ts: seq<TaskId>, fromInt: bool)
    requires CoreOk(s) && q in s.cfg.queues && q in s.queue && NoDup(ts) && AllTasks(ts, |s.tcb|)
    requires forall t :: t in ts ==> t in s.queue[q]
    ensures var s' := EndEach(s, ts, fromInt);
      && CoreOk(s') && Elsewhere(s, s', q, set t | t in ts)
      && (forall t :: t in s'.queue[q] <==> t in s.queue[q] && t !in ts)
      && (forall t :: t in ts ==> t < |s.tcb| && !s'.tcb[t].tstat.waiting && s'.tcb[t].winfo == Wercd(E_OK))
      && Subseq(s'.queue[q], s.queue[q])
    decreases |ts|
  {
    hide CoreOk, EndOne, EndEach, Subseq, Remove;
    EndEachStep(s, ts, fromInt);
    SubseqSelf(s.queue[q]);
    if ts != [] {
      var t := ts[0];
      var s1 := EndOne(s, t, fromInt);
      assert t in ts;
      EndOneFacts(s, q, t, fromInt);
      QueueTasks(s, q);
      RemoveMembers(s.queue[q], t);
      SubseqRemove(s.queue[q], t);
      assert forall i :: 0 <= i < |ts[1..]| ==> ts[1..][i] == ts[i + 1];
      assert forall x :: x in ts[1..] ==> x in ts && x != t;
      EndEachFacts(s1, q, ts[1..], fromInt);
      var s' := EndEach(s1, ts[1..], fromInt);
      SubseqTrans(s'.queue[q], s1.queue[q], s.queue[q]);
      assert forall x :: x in ts <==> x == t || x in ts[1..];
      assert s'.tcb[t] == s1.tcb[t];
    }
  }
}
