/**
 Precedence: tasks of better priority come first, and among tasks of the same priority those
 that have been runnable for longer. What every step leaves of it, and what rot_rdq and chg_pri
 make of it, without a word about how.
 */
module Precedence {
  import opened Common
  import opened HeapLinks
  import opened KernelState
  import opened KernelSpec
  import opened KernelInv
  import opened KernelRuns
  import opened WaitSteps
  import opened TaskFates

  /** `a` comes before `b` in `q`. */
  ghost predicate Before(q: seq<TaskId>, a: TaskId, b: TaskId) {
    exists i, j :: 0 <= i < j < |q| && q[i] == a && q[j] == b
  }

  /** From `q` to `q'` nobody but `moved` falls back: who was and is there stays before those who
      come later, and before those who were behind it. */
  ghost predicate Ordered(q: seq<TaskId>, q': seq<TaskId>, moved: set<TaskId>) {
    forall a, b :: a in q && a in q' && a !in moved && b in q' && b != a && (b !in q || b in moved || Before(q, a, b)) ==> Before(q', a, b)
  }

  lemma GrowsOrdered(q: seq<TaskId>, q': seq<TaskId>)
    requires NoDup(q') && q <= q'
    ensures Ordered(q, q', {})
  {
    forall a, b | a in q && b in q' && b != a && (b !in q || Before(q, a, b))
      ensures Before(q', a, b)
    {
      if b in q {
        var i, j :| 0 <= i < j < |q| && q[i] == a && q[j] == b;
        assert q'[i] == a && q'[j] == b;
      } else {
        var i :| 0 <= i < |q| && q[i] == a;
        var j :| 0 <= j < |q'| && q'[j] == b;
        assert q'[i] == a;
      }
    }
  }

  /** Where everybody is when one is taken out. */
  lemma {:induction false} RemoveBefore(q: seq<TaskId>, x: TaskId, a: TaskId, b: TaskId)
    requires Before(q, a, b) && a != x && b != x
    ensures Before(Remove(q, x), a, b)
  {
    var i, j :| 0 <= i < j < |q| && q[i] == a && q[j] == b;
    var r := Remove(q[1..], x);
    if q[0] == x {
      assert q[1..][i - 1] == a && q[1..][j - 1] == b;
    } else if i == 0 {
      assert q[1..][j - 1] == b;
      RemoveIn(q[1..], x, b);
      var k :| 0 <= k < |r| && r[k] == b;
      assert Remove(q, x)[0] == a && Remove(q, x)[k + 1] == b;
    } else {
      assert q[1..][i - 1] == a && q[1..][j - 1] == b;
      RemoveBefore(q[1..], x, a, b);
      var k, l :| 0 <= k < l < |r| && r[k] == a && r[l] == b;
      assert Remove(q, x)[k + 1] == a && Remove(q, x)[l + 1] == b;
    }
  }

  /** One task leaves, or goes to the end; it is moved if it was there and still is. */
  lemma MovesOrdered(q: seq<TaskId>, x: TaskId, q': seq<TaskId>)
    requires NoDup(q) && (q' == Remove(q, x) || q' == Remove(q, x) + [x])
    ensures Ordered(q, q', {x})
    ensures x !in q || x !in q' ==> Ordered(q, q', {})
  {
    var r := Remove(q, x);
    RemoveMembers(q, x);
    forall a, b | a in q && a in q' && a != x && b in q' && b != a && (b !in q || b == x || Before(q, a, b))
      ensures Before(q', a, b)
    {
      assert a in r;
      var i :| 0 <= i < |r| && r[i] == a;
      if b == x {
        assert q' == r + [x];
        assert q'[i] == a && q'[|r|] == b;
      } else {
        assert b in r && b in q;
        RemoveBefore(q, x, a, b);
        var k, l :| 0 <= k < l < |r| && r[k] == a && r[l] == b;
        assert q'[k] == a && q'[l] == b;
      }
    }
  }

  lemma RotateOrdered(q: seq<TaskId>)
    requires NoDup(q) && q != []
    ensures Ordered(q, Rotate(q), {q[0]})
  {
    var r := Rotate(q);
    forall a, b | a in q && a in r && a != q[0] && b in r && b != a && (b !in q || b == q[0] || Before(q, a, b))
      ensures Before(r, a, b)
    {
      if b == q[0] {
        var i :| 0 <= i < |q| && q[i] == a;
        assert r[i - 1] == a && r[|q| - 1] == b;
      } else {
        var i, j :| 0 <= i < j < |q| && q[i] == a && q[j] == b;
        assert r[i - 1] == a && r[j - 1] == b;
      }
    }
  }

  // ----- steps -----

  /** The task that the step sends to the end of the ready queue of its priority, if it is in it then. */
  function SentBack(s: State, op: Op): set<TaskId> {
    if Verdict(s, op) != E_OK then {}
    else match op
      case OpChgPri(_, _) => {Named(s, op)}
      case OpTerTsk(_) => {Named(s, op)}
      case OpExtTsk => {Named(s, op)}
      case OpRotRdq(tskpri) => HeadOf(s, RotatedPri(s, tskpri))
      case OpIRotRdq(tskpri) => HeadOf(s, RotatedPri(s, tskpri))
      case _ => {}
  }

  /** The internal priority that is meant; 0 means that of the running task. */
  function RotatedPri(s: State, tskpri: int): nat {
    if tskpri >= 1 then tskpri - 1
    else if s.runtsk.Some? && s.runtsk.value < |s.tcb| then s.tcb[s.runtsk.value].priority
    else 0
  }

  function HeadOf(s: State, p: nat): set<TaskId> {
    if Ready(p) in s.queue && s.queue[Ready(p)] != [] then {s.queue[Ready(p)][0]} else {}
  }

  /** The order in the ready queue of `p` from `s` to `s'`. */
  ghost predicate ReadyOrdered(s: State, s': State, p: nat, moved: set<TaskId>) {
    && Ready(p) in s.queue && Ready(p) in s'.queue
    && Ordered(s.queue[Ready(p)], s'.queue[Ready(p)], moved)
  }

  lemma SameOrdered(s: State, s': State, p: nat)
    requires CoreOk(s) && s'.queue == s.queue && p < TNUM_TPRI
    ensures ReadyOrdered(s, s', p, {})
  {
    hide Ordered;
    ReadyParts(s, p);
    GrowsOrdered(s.queue[Ready(p)], s'.queue[Ready(p)]);
  }

  lemma ReadyParts(s: State, p: nat)
    requires CoreOk(s) && p < TNUM_TPRI
    ensures Ready(p) in s.queue && NoDup(s.queue[Ready(p)]) && Ready(p) !in s.cfg.tpri
    ensures forall t: nat :: t < |s.tcb| ==> (t in s.queue[Ready(p)] <==> s.tcb[t].tstat.runnable && s.tcb[t].priority == p)
    ensures forall t :: t in s.queue[Ready(p)] ==> t < |s.tcb|
  {
    hide TimersOk, ClockOk, Sorted;
  }

  /** A task moves: it leaves its ready queue, or goes to the end of one. */
  lemma RehomeMoves(s: State, t: TaskId, c: Tcb, p: nat)
    requires t < |s.tcb| && Ready(p) in s.queue && Ready(p) !in s.cfg.tpri
    requires t in s.queue[Ready(p)] ==> Home(s.tcb[t]) == Some(Ready(p))
    ensures Ready(p) in Rehome(s, t, c).queue
    ensures var (q, q') := (s.queue[Ready(p)], Rehome(s, t, c).queue[Ready(p)]);
      q' == Remove(q, t) + if Home(c) == Some(Ready(p)) then [t] else []
  {
    hide Remove, InsertTpri, Home;
    if Home(s.tcb[t]) != Some(Ready(p)) {
      RemoveAbsent(s.queue[Ready(p)], t);
    }
  }

  lemma RehomeOrdered(s: State, t: TaskId, c: Tcb, p: nat)
    requires CoreOk(s) && t < |s.tcb| && p < TNUM_TPRI
    ensures ReadyOrdered(s, Rehome(s, t, c), p, {t})
    ensures !s.tcb[t].tstat.runnable || !c.tstat.runnable ==> ReadyOrdered(s, Rehome(s, t, c), p, {})
  {
    hide CoreOk, Remove, Rehome, Ordered;
    ReadyParts(s, p);
    RehomeMoves(s, t, c, p);
    MovesOrdered(s.queue[Ready(p)], t, Rehome(s, t, c).queue[Ready(p)]);
    RemoveMembers(s.queue[Ready(p)], t);
  }

  lemma OrderedWiden(q: seq<TaskId>, q': seq<TaskId>, x: TaskId)
    requires Ordered(q, q', {}) && (x !in q || x !in q')
    ensures Ordered(q, q', {x})
  {
  }

  /** Only queues matter. */
  lemma EndOrdered(s: State, p: nat, moved: set<TaskId>)
    ensures forall r: Result {:trigger TaskEnd(r)} :: ReadyOrdered(s, r.s, p, moved) ==> ReadyOrdered(s, TaskEnd(r).s, p, moved)
    ensures forall r: Result {:trigger IntEnd(s, r)} :: ReadyOrdered(s, r.s, p, moved) ==> ReadyOrdered(s, IntEnd(s, r).s, p, moved)
  {
    hide Sched, Ordered;
  }

  lemma ActivateOrdered(s: State, t: TaskId, p: nat)
    requires CoreOk(s) && t < |s.tcb| && p < TNUM_TPRI
    ensures ReadyOrdered(s, Activate(s, t).s, p, {})
  {
    hide CoreOk, Rehome, ReadyOrdered;
    if s.tcb[t].tstat.Dormant() {
      RehomeOrdered(s, t, s.tcb[t].(tstat := TS_RUNNABLE), p);
    } else {
      SameOrdered(s, Activate(s, t).s, p);
    }
  }

  lemma TerminateOrdered(s: State, t: TaskId, p: nat)
    requires CoreOk(s) && t < |s.tcb| && p < TNUM_TPRI
    ensures |s.tcb| == |s.cfg.ipriority| && ReadyOrdered(s, Terminate(s, t), p, {t})
  {
    hide CoreOk, Terminate, Ordered;
    ReadyParts(s, p);
    RestartIsFresh(s, t);
    MovesOrdered(s.queue[Ready(p)], t, Terminate(s, t).queue[Ready(p)]);
  }

  lemma ChangePriorityOrdered(s: State, t: TaskId, pri: nat, p: nat)
    requires CoreOk(s) && t < |s.tcb| && p < TNUM_TPRI
    ensures ReadyOrdered(s, ChangePriority(s, t, pri), p, {t})
  {
    hide CoreOk, Rehome, Ordered;
    SameOrdered(s, Retag(s, t, s.tcb[t].(priority := pri)), p);
    RehomeOrdered(s, t, s.tcb[t].(priority := pri), p);
    ReadyParts(s, p);
    if !s.tcb[t].tstat.runnable {
      OrderedWiden(s.queue[Ready(p)], s.queue[Ready(p)], t);
    }
  }

  lemma ReleaseGrows(s: State, t: TaskId, ercd: Ercd, p: nat)
    requires CoreOk(s) && t < |s.tcb| && p < TNUM_TPRI && s.tcb[t].tstat.waiting
    ensures CoreOk(Release(s, t, ercd))
    ensures Ready(p) in s.queue && Ready(p) in Release(s, t, ercd).queue && s.queue[Ready(p)] <= Release(s, t, ercd).queue[Ready(p)]
  {
    hide CoreOk, Rehome;
    ReadyParts(s, p);
    ReleaseKeeps(s, t, ercd);
    WaitsNotReady(s, t);
    RemoveAbsent(s.queue[Ready(p)], t);
    var tstat := if s.tcb[t].tstat.suspended then TS_SUSPENDED else TS_RUNNABLE;
    RehomeMoves(s, t, s.tcb[t].(tstat := tstat, winfo := Wercd(ercd)), p);
  }

  lemma WaitsNotReady(s: State, t: TaskId)
    requires CoreOk(s) && t < |s.tcb| && s.tcb[t].tstat.waiting
    ensures !s.tcb[t].tstat.runnable
  {
    hide QueuesOk, TimersOk, Sorted, ClockOk;
    assert TaskOk(s.cfg, t, s.tcb[t]);
  }

  lemma GrownOrdered(s: State, s': State, p: nat)
    requires CoreOk(s') && p < TNUM_TPRI && Ready(p) in s.queue && Ready(p) in s'.queue && s.queue[Ready(p)] <= s'.queue[Ready(p)]
    ensures ReadyOrdered(s, s', p, {})
  {
    hide CoreOk, Ordered;
    ReadyParts(s', p);
    GrowsOrdered(s.queue[Ready(p)], s'.queue[Ready(p)]);
  }

  lemma ReleaseOrdered(s: State, t: TaskId, ercd: Ercd, p: nat)
    requires CoreOk(s) && t < |s.tcb| && p < TNUM_TPRI && s.tcb[t].tstat.waiting
    ensures ReadyOrdered(s, Release(s, t, ercd), p, {})
  {
    hide CoreOk, Release, ReadyOrdered;
    ReleaseGrows(s, t, ercd, p);
    GrownOrdered(s, Release(s, t, ercd), p);
  }

  lemma {:induction false} ReleaseAllGrows(s: State, ts: seq<TaskId>, ercd: Ercd, p: nat)
    requires CoreOk(s) && AllWaiting(s, ts) && AllTasks(ts, |s.tcb|) && p < TNUM_TPRI
    ensures CoreOk(ReleaseAll(s, ts, ercd)) && Ready(p) in s.queue && Ready(p) in ReleaseAll(s, ts, ercd).queue
    ensures s.queue[Ready(p)] <= ReleaseAll(s, ts, ercd).queue[Ready(p)]
    decreases |ts|
  {
    hide CoreOk, Release;
    ReadyParts(s, p);
    if ts != [] {
      ReleaseGrows(s, ts[0], ercd, p);
      RestWait(s, ts, ercd);
      ReleaseAllGrows(Release(s, ts[0], ercd), ts[1..], ercd, p);
    }
  }

  /** Tasks after the first still wait when that is released. */
  lemma RestWait(s: State, ts: seq<TaskId>, ercd: Ercd)
    requires ts != [] && AllWaiting(s, ts)
    ensures AllWaiting(Release(s, ts[0], ercd), ts[1..]) && |Release(s, ts[0], ercd).tcb| == |s.tcb|
  {
    hide Release;
    ReleaseTcb(s, ts[0], ercd);
    assert forall i :: 0 <= i < |ts[1..]| ==> ts[1..][i] == ts[i + 1];
  }

  lemma {:induction false} IEndWaitsGrows(s: State, ts: seq<TaskId>, p: nat)
    requires CoreOk(s) && AllWaiting(s, ts) && AllTasks(ts, |s.tcb|) && p < TNUM_TPRI
    ensures CoreOk(IEndWaits(s, ts)) && Ready(p) in s.queue && Ready(p) in IEndWaits(s, ts).queue
    ensures s.queue[Ready(p)] <= IEndWaits(s, ts).queue[Ready(p)]
    decreases |ts|
  {
    hide CoreOk, Release, Sched;
    ReadyParts(s, p);
    if ts != [] {
      var s1 := IntEnd(s, Result(Release(s, ts[0], E_OK), Returns(E_OK))).s;
      ReleaseGrows(s, ts[0], E_OK, p);
      RestWait(s, ts, E_OK);
      DispatchCore(Release(s, ts[0], E_OK));
      IEndWaitsGrows(s1, ts[1..], p);
    }
  }

  lemma WaitOrdered(s: State, cause: nat, wobj: nat, tmout: Option<nat>, p: nat)
    requires CoreOk(s) && InTask(s) && s.cfg.time.Ok() && p < TNUM_TPRI
    ensures ReadyOrdered(s, MakeWait(s, cause, wobj, tmout), p, {})
  {
    hide CoreOk, Rehome, Ordered;
    var t := s.runtsk.value;
    RehomeOrdered(s, t, s.tcb[t].(tstat := TsWaiting(cause), wobj := wobj, winfo := Tmevtb(if tmout.Some? then Some(TaskTimer(t)) else None)), p);
  }

  // The service calls, one by one or in groups.

  lemma ActCallsOrdered(s: State, tskid: int, p: nat)
    requires CoreOk(s) && p < TNUM_TPRI
    ensures ReadyOrdered(s, ActTsk(s, tskid).s, p, {}) && ReadyOrdered(s, IActTsk(s, tskid).s, p, {})
    ensures ReadyOrdered(s, CanAct(s, tskid).s, p, {}) && ReadyOrdered(s, CanWup(s, tskid).s, p, {})
  {
    hide CoreOk, TaskEnd, IntEnd, Activate, ReadyOrdered;
    EndOrdered(s, p, {});
    SameOrdered(s, s, p);
    SameOrdered(s, CanAct(s, tskid).s, p);
    SameOrdered(s, CanWup(s, tskid).s, p);
    forall t: nat | t < |s.tcb|
      ensures ReadyOrdered(s, Activate(s, t).s, p, {})
    {
      ActivateOrdered(s, t, p);
    }
  }

  lemma ExtOrdered(s: State, p: nat)
    requires CoreOk(s) && ShapeOk(s) && InTask(s) && p < TNUM_TPRI
    ensures ReadyOrdered(s, ExtTsk(s).s, p, {s.runtsk.value})
  {
    hide CoreOk, Terminate, ReadyOrdered, QueueNames;
    var s1 := s.(disdsp := false, ipmflg := true, dspflg := true);
    FlagsCore(s, s1);
    EndOrdered(s, p, {s.runtsk.value});
    TerminateOrdered(s1, s.runtsk.value, p);
    QueuesOnly(s1, s, Terminate(s1, s.runtsk.value), p, {s.runtsk.value});
  }

  lemma QueuesOnly(s1: State, s2: State, s': State, p: nat, moved: set<TaskId>)
    requires ReadyOrdered(s1, s', p, moved) && s1.queue == s2.queue
    ensures ReadyOrdered(s2, s', p, moved)
  {
  }

  lemma TerOrdered(s: State, t: TaskId, p: nat)
    requires CoreOk(s) && t < |s.tcb| && p < TNUM_TPRI
    ensures |s.tcb| == |s.cfg.ipriority| && ReadyOrdered(s, TaskEnd(Result(Terminate(s, t), Returns(E_OK))).s, p, {t})
  {
    hide CoreOk, Terminate, ReadyOrdered, TaskEnd;
    EndOrdered(s, p, {t});
    TerminateOrdered(s, t, p);
  }

  lemma PriOrdered(s: State, t: TaskId, pri: nat, p: nat)
    requires CoreOk(s) && t < |s.tcb| && p < TNUM_TPRI
    ensures ReadyOrdered(s, TaskEnd(Result(ChangePriority(s, t, pri), Returns(E_OK))).s, p, {t})
  {
    hide CoreOk, ChangePriority, ReadyOrdered, TaskEnd;
    EndOrdered(s, p, {t});
    ChangePriorityOrdered(s, t, pri, p);
  }

  lemma SleepCallsOrdered(s: State, tmout: int, dlytim: nat, p: nat)
    requires CoreOk(s) && s.cfg.time.Ok() && p < TNUM_TPRI
    ensures ReadyOrdered(s, TslpTsk(s, tmout).s, p, {}) && ReadyOrdered(s, DlyTsk(s, dlytim).s, p, {})
  {
    hide CoreOk, MakeWait, ReadyOrdered, TaskEnd;
    EndOrdered(s, p, {});
    SameOrdered(s, s, p);
    if InTask(s) {
      var t := s.runtsk.value;
      SameOrdered(s, Retag(s, t, s.tcb[t].(wupque := false)), p);
      WaitOrdered(s, SLP, s.tcb[t].wobj, if tmout > 0 then Some(tmout) else None, p);
      WaitOrdered(s, DLY, s.tcb[t].wobj, Some(dlytim), p);
    }
  }

  lemma WakeCallsOrdered(s: State, tskid: int, p: nat)
    requires Inv(s) && p < TNUM_TPRI
    ensures ReadyOrdered(s, WupTsk(s, tskid).s, p, {}) && ReadyOrdered(s, IWupTsk(s, tskid).s, p, {})
    ensures ReadyOrdered(s, RelWai(s, tskid).s, p, {}) && ReadyOrdered(s, IRelWai(s, tskid).s, p, {})
  {
    hide CoreOk, DispatchOk, Wakeup, BreakWait, ReadyOrdered, TaskEnd, IntEnd;
    EndOrdered(s, p, {});
    SameOrdered(s, s, p);
    forall t: nat | t < |s.tcb|
      ensures ReadyOrdered(s, Wakeup(s, t).s, p, {}) && ReadyOrdered(s, BreakWait(s, t).s, p, {})
    {
      WakeupOrdered(s, t, p);
    }
  }

  lemma WakeupOrdered(s: State, t: TaskId, p: nat)
    requires Inv(s) && t < |s.tcb| && p < TNUM_TPRI
    ensures ReadyOrdered(s, Wakeup(s, t).s, p, {}) && ReadyOrdered(s, BreakWait(s, t).s, p, {})
  {
    hide Inv, Release, ReadyOrdered;
    CoreIs(s);
    BitsFit(s);
    SameOrdered(s, s, p);
    SameOrdered(s, Retag(s, t, s.tcb[t].(wupque := true)), p);
    if s.tcb[t].tstat.waiting {
      ReleaseOrdered(s, t, E_OK, p);
      ReleaseOrdered(s, t, E_RLWAI, p);
    }
  }

  lemma CoreIs(s: State)
    requires Inv(s)
    ensures CoreOk(s) && ShapeOk(s) && s.cfg.time.Ok()
  {
    hide QueuesOk, TimersOk, Sorted, ClockOk, DispatchOk, QueueNames;
  }

  lemma SuspendCallsOrdered(s: State, tskid: int, p: nat)
    requires Inv(s) && p < TNUM_TPRI
    ensures ReadyOrdered(s, SusTsk(s, tskid).s, p, {}) && ReadyOrdered(s, RsmTsk(s, tskid).s, p, {})
  {
    hide Inv, Rehome, ReadyOrdered, TaskEnd;
    CoreIs(s);
    BitsFit(s);
    EndOrdered(s, p, {});
    SameOrdered(s, s, p);
    forall t: nat, c | t < |s.tcb|
      ensures ReadyOrdered(s, Retag(s, t, c), p, {})
      ensures !s.tcb[t].tstat.runnable || !c.tstat.runnable ==> ReadyOrdered(s, Rehome(s, t, c), p, {})
    {
      SameOrdered(s, Retag(s, t, c), p);
      RehomeOrdered(s, t, c, p);
    }
  }

  lemma RotateReadyOrdered(s: State, pri: nat, p: nat)
    requires CoreOk(s) && p < TNUM_TPRI
    ensures ReadyOrdered(s, RotateReady(s, pri), p, HeadOf(s, pri))
  {
    hide CoreOk, Ordered, Rotate;
    ReadyParts(s, p);
    SameOrdered(s, s, p);
    if Ready(pri) in s.queue && s.queue[Ready(pri)] != [] {
      if p == pri {
        RotateOrdered(s.queue[Ready(p)]);
      } else {
        OtherHead(s, pri, p);
        OrderedWiden(s.queue[Ready(p)], s.queue[Ready(p)], s.queue[Ready(pri)][0]);
      }
    } else {
      EmptyRotates(s, pri);
    }
  }

  lemma EmptyRotates(s: State, pri: nat)
    requires Ready(pri) in s.queue ==> s.queue[Ready(pri)] == []
    ensures RotateReady(s, pri).queue == s.queue
  {
  }

  lemma OtherHead(s: State, pri: nat, p: nat)
    requires CoreOk(s) && p < TNUM_TPRI && p != pri && Ready(pri) in s.queue && s.queue[Ready(pri)] != []
    ensures Ready(p) in s.queue && s.queue[Ready(pri)][0] !in s.queue[Ready(p)]
  {
    hide TimersOk, ClockOk, Sorted;
    assert s.queue[Ready(pri)][0] in s.queue[Ready(pri)];
  }

  // ----- the whole -----

  /** First come, first served: no step lets a task overtake another one of the same priority
      that stays runnable, unless chg_pri or rot_rdq sends that one back or it ends. */
  lemma StepOrdered(s: State, op: Op, p: nat)
    requires Inv(s) && Enabled(s, op) && p < TNUM_TPRI
    ensures ReadyOrdered(s, Do(s, op), p, SentBack(s, op))
  {
    hide Inv, Enabled, Do, ReadyOrdered, Verdict, TaskCall, SentBack;
    CoreIs(s);
    RefusedExactly(s, op);
    if Verdict(s, op) != E_OK {
      RefusedStays(s, op);
      SameOrdered(s, s, p);
    } else if op.OpExtTsk? || op.OpTerTsk? || op.OpChgPri? || op.OpRotRdq? || op.OpIRotRdq? {
      BackOrdered(s, op, p);
    } else if TaskCall(op) {
      NotBack(s, op);
      CallOrdered(s, op, p);
    } else {
      NotBack(s, op);
      OtherOrdered(s, op, p);
    }
  }

  lemma RefusedStays(s: State, op: Op)
    requires Verdict(s, op) != E_OK
    ensures SentBack(s, op) == {}
  {
    hide Verdict;
  }

  lemma NotBack(s: State, op: Op)
    requires !(op.OpExtTsk? || op.OpTerTsk? || op.OpChgPri? || op.OpRotRdq? || op.OpIRotRdq?)
    ensures SentBack(s, op) == {}
  {
    hide Verdict;
  }

  lemma BackOrdered(s: State, op: Op, p: nat)
    requires Inv(s) && ShapeOk(s) && Enabled(s, op) && p < TNUM_TPRI && Verdict(s, op) == E_OK
    requires op.OpExtTsk? || op.OpTerTsk? || op.OpChgPri? || op.OpRotRdq? || op.OpIRotRdq?
    ensures ReadyOrdered(s, Do(s, op), p, SentBack(s, op))
  {
    hide Inv, QueueNames, Verdict, ReadyOrdered, Terminate, ChangePriority, RotateReady, TaskEnd, IntEnd, Named, Target;
    CoreIs(s);
    ParameterOk(s, op);
    EndOrdered(s, p, SentBack(s, op));
    match op
    case OpExtTsk =>
      NamedSelf(s, op);
      ExtOrdered(s, p);
    case OpTerTsk(_) =>
      NamedTask(s, op);
      TerOrdered(s, Named(s, op), p);
    case OpChgPri(_, tskpri) =>
      NamedTask(s, op);
      PriOrdered(s, Named(s, op), if tskpri == 0 then s.cfg.ipriority[Named(s, op)] else tskpri - 1, p);
    case OpRotRdq(tskpri) => RotateReadyOrdered(s, RotatedPri(s, tskpri), p);
    case OpIRotRdq(tskpri) => RotateReadyOrdered(s, RotatedPri(s, tskpri), p);
  }

  lemma NamedSelf(s: State, op: Op)
    requires op.OpExtTsk? && Verdict(s, op) == E_OK
    ensures InTask(s) && Named(s, op) == s.runtsk.value
  {
  }

  lemma CallOrdered(s: State, op: Op, p: nat)
    requires Inv(s) && ShapeOk(s) && Enabled(s, op) && p < TNUM_TPRI && TaskCall(op) && !op.OpExtTsk? && !op.OpTerTsk? && !op.OpChgPri?
    ensures ReadyOrdered(s, Do(s, op), p, {})
  {
    hide Inv, QueueNames, ReadyOrdered;
    hide ActTsk, IActTsk, CanAct, CanWup;
    CoreIs(s);
    match op
    case OpActTsk(tskid) => ActCallsOrdered(s, tskid, p);
    case OpIActTsk(tskid) => ActCallsOrdered(s, tskid, p);
    case OpCanAct(tskid) => ActCallsOrdered(s, tskid, p);
    case OpCanWup(tskid) => ActCallsOrdered(s, tskid, p);
    case _ => SyncCallOrdered(s, op, p);
  }

  lemma SyncCallOrdered(s: State, op: Op, p: nat)
    requires Inv(s) && ShapeOk(s) && Enabled(s, op) && p < TNUM_TPRI
    requires op.OpTslpTsk? || op.OpDlyTsk? || op.OpWupTsk? || op.OpIWupTsk? || op.OpRelWai? || op.OpIRelWai? || op.OpSusTsk? || op.OpRsmTsk?
    ensures ReadyOrdered(s, Do(s, op), p, {})
  {
    hide Inv, QueueNames, ReadyOrdered;
    hide TslpTsk, DlyTsk, WupTsk, IWupTsk, RelWai, IRelWai, SusTsk, RsmTsk;
    CoreIs(s);
    match op
    case OpTslpTsk(tmout) => SleepCallsOrdered(s, tmout, 0, p);
    case OpDlyTsk(dlytim) => SleepCallsOrdered(s, 0, dlytim, p);
    case OpWupTsk(tskid) => WakeCallsOrdered(s, tskid, p);
    case OpIWupTsk(tskid) => WakeCallsOrdered(s, tskid, p);
    case OpRelWai(tskid) => WakeCallsOrdered(s, tskid, p);
    case OpIRelWai(tskid) => WakeCallsOrdered(s, tskid, p);
    case OpSusTsk(tskid) => SuspendCallsOrdered(s, tskid, p);
    case OpRsmTsk(tskid) => SuspendCallsOrdered(s, tskid, p);
  }

  lemma OtherOrdered(s: State, op: Op, p: nat)
    requires Inv(s) && ShapeOk(s) && Enabled(s, op) && p < TNUM_TPRI && !TaskCall(op) && !op.OpRotRdq? && !op.OpIRotRdq?
    ensures ReadyOrdered(s, Do(s, op), p, {})
  {
    hide Inv, QueueNames, ReadyOrdered, AllWaiting, IsTop;
    CoreIs(s);
    if op.OpWaitOn? || op.OpEndWaits? || op.OpIEndWaits? || op.OpFire? {
      hide WaitOn, EndWaits, IEndWaits, Fire;
      match op
      case OpWaitOn(q, tmout) => WaitOnOrdered(s, q, tmout, p);
      case OpEndWaits(ts, ercd) => EndWaitsOrdered(s, ts, ercd, p);
      case OpIEndWaits(ts) => EndWaitsOrdered(s, ts, E_OK, p);
      case OpFire(e) => FireOrdered(s, e, p);
    } else {
      hide Do, Enabled;
      SameParts(s, op);
      SameOrdered(s, Do(s, op), p);
    }
  }

  lemma WaitOnOrdered(s: State, q: QName, tmout: int, p: nat)
    requires CoreOk(s) && InTask(s) && s.cfg.time.Ok() && q.Wait? && p < TNUM_TPRI
    ensures ReadyOrdered(s, WaitOn(s, q, tmout).s, p, {})
  {
    hide CoreOk, MakeWait, ReadyOrdered, TaskEnd;
    EndOrdered(s, p, {});
    WaitOrdered(s, q.cause, q.id, if tmout > 0 then Some(tmout) else None, p);
  }

  lemma EndWaitsOrdered(s: State, ts: seq<TaskId>, ercd: Ercd, p: nat)
    requires CoreOk(s) && AllWaiting(s, ts) && p < TNUM_TPRI
    ensures AllTasks(ts, |s.tcb|)
    ensures ReadyOrdered(s, EndWaits(s, ts, ercd), p, {}) && ReadyOrdered(s, IEndWaits(s, ts), p, {})
  {
    hide CoreOk, ReleaseAll, IEndWaits, ReadyOrdered, Sched;
    ReleaseAllGrows(s, ts, ercd, p);
    IEndWaitsGrows(s, ts, p);
    GrownOrdered(s, ReleaseAll(s, ts, ercd), p);
    GrownOrdered(s, IEndWaits(s, ts), p);
    QueuesLater(s, ReleaseAll(s, ts, ercd), EndWaits(s, ts, ercd), p);
  }

  lemma QueuesLater(s: State, s1: State, s2: State, p: nat)
    requires ReadyOrdered(s, s1, p, {}) && s1.queue == s2.queue
    ensures ReadyOrdered(s, s2, p, {})
  {
  }

  lemma FireOrdered(s: State, e: Event, p: nat)
    requires CoreOk(s) && s.cfg.time.Ok() && IsTop(s, e) && p < TNUM_TPRI
    ensures e in s.pending && ReadyOrdered(s, Fire(s, e), p, {})
  {
    hide CoreOk, Release, ReadyOrdered, IntEnd, IsTop;
    TimerFires(s, e);
    EndOrdered(s, p, {});
    if e.TaskTimer? {
      ReleaseOrdered(s, e.tsk, E_OK, p);
      ReleaseOrdered(s, e.tsk, E_TMOUT, p);
    } else {
      SameOrdered(s, Fire(s, e), p);
    }
  }

  // ----- several tasks at once -----

  /** Those of the tasks `ts` that are runnable again with the priority `p` when their waits end. */
  function Returning(ts: seq<TaskId>, tcb: seq<Tcb>, p: nat): seq<TaskId>
    requires AllTasks(ts, |tcb|)
    decreases |ts|
  {
    if ts == [] then []
    else (if !tcb[ts[0]].tstat.suspended && tcb[ts[0]].priority == p then [ts[0]] else []) + Returning(ts[1..], tcb, p)
  }

  lemma {:induction false} SameReturning(ts: seq<TaskId>, tcb: seq<Tcb>, tcb': seq<Tcb>, p: nat)
    requires AllTasks(ts, |tcb|) && |tcb'| == |tcb|
    requires forall t :: t in ts ==> tcb'[t].tstat == tcb[t].tstat && tcb'[t].priority == tcb[t].priority
    ensures Returning(ts, tcb, p) == Returning(ts, tcb', p)
    decreases |ts|
  {
    if ts != [] {
      SameReturning(ts[1..], tcb, tcb', p);
    }
  }

  lemma ReleaseReturns(s: State, t: TaskId, ercd: Ercd, p: nat)
    requires CoreOk(s) && t < |s.tcb| && p < TNUM_TPRI && s.tcb[t].tstat.waiting
    ensures CoreOk(Release(s, t, ercd)) && Ready(p) in s.queue && Ready(p) in Release(s, t, ercd).queue
    ensures Release(s, t, ercd).queue[Ready(p)] ==
      s.queue[Ready(p)] + if !s.tcb[t].tstat.suspended && s.tcb[t].priority == p then [t] else []
  {
    hide CoreOk, Rehome;
    ReadyParts(s, p);
    ReleaseKeeps(s, t, ercd);
    WaitsNotReady(s, t);
    RemoveAbsent(s.queue[Ready(p)], t);
    var tstat := if s.tcb[t].tstat.suspended then TS_SUSPENDED else TS_RUNNABLE;
    RehomeMoves(s, t, s.tcb[t].(tstat := tstat, winfo := Wercd(ercd)), p);
  }

  /** The tasks after the first are not touched when that is released. */
  lemma RestSame(s: State, ts: seq<TaskId>, ercd: Ercd, p: nat)
    requires ts != [] && AllTasks(ts, |s.tcb|) && NoDup(ts)
    ensures |Release(s, ts[0], ercd).tcb| == |s.tcb|
    ensures Returning(ts[1..], s.tcb, p) == Returning(ts[1..], Release(s, ts[0], ercd).tcb, p)
  {
    hide Release;
    ReleaseTcb(s, ts[0], ercd);
    assert ts[0] !in ts[1..];
    SameReturning(ts[1..], s.tcb, Release(s, ts[0], ercd).tcb, p);
  }

  lemma {:induction false} ReleaseAllInOrder(s: State, ts: seq<TaskId>, ercd: Ercd, p: nat)
    requires CoreOk(s) && AllWaiting(s, ts) && AllTasks(ts, |s.tcb|) && p < TNUM_TPRI
    ensures Ready(p) in s.queue && Ready(p) in ReleaseAll(s, ts, ercd).queue
    ensures ReleaseAll(s, ts, ercd).queue[Ready(p)] == s.queue[Ready(p)] + Returning(ts, s.tcb, p)
    decreases |ts|
  {
    hide CoreOk, Release;
    ReadyParts(s, p);
    if ts != [] {
      ReleaseReturns(s, ts[0], ercd, p);
      RestWait(s, ts, ercd);
      RestSame(s, ts, ercd, p);
      ReleaseAllInOrder(Release(s, ts[0], ercd), ts[1..], ercd, p);
    }
  }

  lemma {:induction false} IEndWaitsInOrder(s: State, ts: seq<TaskId>, p: nat)
    requires CoreOk(s) && AllWaiting(s, ts) && AllTasks(ts, |s.tcb|) && p < TNUM_TPRI
    ensures Ready(p) in s.queue && Ready(p) in IEndWaits(s, ts).queue
    ensures IEndWaits(s, ts).queue[Ready(p)] == s.queue[Ready(p)] + Returning(ts, s.tcb, p)
    decreases |ts|
  {
    hide CoreOk, Release, Sched;
    ReadyParts(s, p);
    if ts != [] {
      ReleaseReturns(s, ts[0], E_OK, p);
      RestWait(s, ts, E_OK);
      RestSame(s, ts, E_OK, p);
      DispatchCore(Release(s, ts[0], E_OK));
      IEndWaitsInOrder(IntEnd(s, Result(Release(s, ts[0], E_OK), Returns(E_OK))).s, ts[1..], p);
    }
  }

  /** Tasks that an object serves in one call become runnable in the order in which it serves them. */
  lemma ServedInOrder(s: State, op: Op, p: nat)
    requires Inv(s) && Enabled(s, op) && (op.OpEndWaits? || op.OpIEndWaits?) && p < TNUM_TPRI
    ensures ShapeOk(s) && AllTasks(op.ts, |s.tcb|) && Ready(p) in s.queue && Ready(p) in Do(s, op).queue
    ensures Do(s, op).queue[Ready(p)] == s.queue[Ready(p)] + Returning(op.ts, s.tcb, p)
  {
    hide Inv, QueueNames, Returning, EndWaits, IEndWaits, AllWaiting, Sched;
    CoreIs(s);
    WaitsOk(s, op);
    match op
    case OpEndWaits(ts, ercd) =>
      ReleaseAllInOrder(s, ts, ercd, p);
      EndWaitsQueues(s, ts, ercd);
    case OpIEndWaits(ts) => IEndWaitsInOrder(s, ts, p);
  }

  lemma EndWaitsQueues(s: State, ts: seq<TaskId>, ercd: Ercd)
    requires AllTasks(ts, |s.tcb|)
    ensures EndWaits(s, ts, ercd).queue == ReleaseAll(s, ts, ercd).queue
  {
    hide ReleaseAll, Sched;
  }
}
