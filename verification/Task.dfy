/**
 task.c: the transitions between runnable and not runnable, with the bitmap and the best
 task kept up to date incrementally. Each returns whether a dispatch is needed.
 */
module Task {
  import opened Common
  import opened Bitmap
  import opened KernelState
  import opened ReadyQueue
  import opened Kernels
  import opened KernelFacts
  import opened WaitQueue
  import S = KernelSpec

  /** search_schedtsk. */
  method SearchSchedtsk(k: Kernel) returns (t: TaskId)
    requires HasReady(k.queue) && Mirrors(k.readyPrimap, k.queue) && k.readyPrimap != 0
    ensures Sched(k.queue) == Some(t)
  {
    var schedpri := Search(k.readyPrimap);
    t := k.queue[Ready(schedpri)][0];
    SchedIs(k.queue, schedpri);
  }

  /** make_runnable: `t` goes to the end of its ready queue. */
  method MakeRunnable(k: Kernel, t: TaskId) returns (d: bool)
    requires k.SchedRep() && PriOk(k.queue, k.tcb)
    requires t < |k.tcb| && k.tcb[t].priority < TNUM_TPRI
    modifies k`queue, k`readyPrimap, k`schedtsk
    ensures k.SchedRep() && PriOk(k.queue, k.tcb)
    ensures var q := Ready(k.tcb[t].priority);
      k.queue == old(k.queue)[q := old(k.queue)[q] + [t]]
    ensures d <==> k.dspflg && k.schedtsk != old(k.schedtsk)
  {
    hide Mirrors, Set, PriOk, Sched;
    var pri := k.tcb[t].priority;
    ghost var best := BestExists(k.queue, 0);
    OnlyThere(k.queue, k.tcb, best, t);
    Appended(k.readyPrimap, k.queue, k.tcb, best, t);
    k.queue := k.queue[Ready(pri) := k.queue[Ready(pri)] + [t]];
    k.readyPrimap := Set(k.readyPrimap, pri);
    if k.schedtsk == None || pri < k.tcb[k.schedtsk.value].priority {
      k.schedtsk := Some(t);
      return k.dspflg;
    }
    return false;
  }

  /** make_non_runnable: `t` leaves its ready queue. */
  method MakeNonRunnable(k: Kernel, t: TaskId) returns (d: bool)
    requires k.SchedRep() && PriOk(k.queue, k.tcb)
    requires t < |k.tcb| && k.tcb[t].priority < TNUM_TPRI
    requires NoDup(k.queue[Ready(k.tcb[t].priority)]) && t in k.queue[Ready(k.tcb[t].priority)]
    modifies k`queue, k`readyPrimap, k`schedtsk
    ensures k.SchedRep() && PriOk(k.queue, k.tcb)
    ensures var q := Ready(k.tcb[t].priority);
      k.queue == old(k.queue)[q := Remove(old(k.queue)[q], t)]
    ensures d <==> k.dspflg && k.schedtsk != old(k.schedtsk)
    ensures k.schedtsk != old(k.schedtsk) <==> old(k.schedtsk) == Some(t)
  {
    hide Mirrors, Set, Clear, PriOk, Sched, Remove;
    var pri := k.tcb[t].priority;
    ghost var best := BestExists(k.queue, 0);
    Removed(k.readyPrimap, k.queue, k.tcb, best, t);
    k.queue := k.queue[Ready(pri) := Remove(k.queue[Ready(pri)], t)];
    if k.queue[Ready(pri)] == [] {
      k.readyPrimap := Clear(k.readyPrimap, pri);
      if k.schedtsk == Some(t) {
        ghost var best' := BestExists(k.queue, 0);
        SchedIs(k.queue, best');
        ZeroIsIdle(k.readyPrimap, k.queue, best');
        if k.readyPrimap == 0 {
          k.schedtsk := None;
        } else {
          var best := SearchSchedtsk(k);
          k.schedtsk := Some(best);
        }
        return k.dspflg;
      }
    } else if k.schedtsk == Some(t) {
      k.schedtsk := Some(k.queue[Ready(pri)][0]);
      return k.dspflg;
    }
    return false;
  }

  /** make_dormant. */
  method MakeDormant(k: Kernel, t: TaskId)
    requires t < |k.tcb| && t < |k.cfg.ipriority|
    modifies k`tcb
    ensures k.tcb == old(k.tcb)[t := old(k.tcb)[t].(tstat := TS_DORMANT, priority := k.cfg.ipriority[t], wupque := false)]
  {
    k.tcb := k.tcb[t := k.tcb[t].(tstat := TS_DORMANT, priority := k.cfg.ipriority[t], wupque := false)];
  }

  /** make_active. */
  method MakeActive(k: Kernel, t: TaskId) returns (d: bool)
    requires k.SchedRep() && PriOk(k.queue, k.tcb)
    requires t < |k.tcb| && k.tcb[t].priority < TNUM_TPRI
    requires forall p: nat :: p < TNUM_TPRI ==> t !in k.queue[Ready(p)]
    modifies k`tcb, k`queue, k`readyPrimap, k`schedtsk
    ensures k.SchedRep() && PriOk(k.queue, k.tcb)
    ensures k.tcb == old(k.tcb)[t := old(k.tcb)[t].(tstat := TS_RUNNABLE)]
    ensures var q := Ready(k.tcb[t].priority);
      k.queue == old(k.queue)[q := old(k.queue)[q] + [t]]
    ensures d <==> k.dspflg && k.schedtsk != old(k.schedtsk)
  {
    PriElsewhere(k.queue, k.tcb, t, k.tcb[t].(tstat := TS_RUNNABLE));
    k.tcb := k.tcb[t := k.tcb[t].(tstat := TS_RUNNABLE)];
    d := MakeRunnable(k, t);
  }

  /** The first part of change_priority: a runnable task moves to the end of another ready
      queue, and the best task is updated when that can change it. */
  method MoveReady(k: Kernel, t: TaskId, oldpri: nat, newpri: nat, ghost tcb: seq<Tcb>) returns (d: bool)
    requires k.SchedRep() && PriOk(k.queue, tcb)
    requires t < |tcb| && tcb[t].priority == oldpri < TNUM_TPRI && newpri < TNUM_TPRI
    requires k.tcb == tcb[t := tcb[t].(priority := newpri)]
    requires NoDup(k.queue[Ready(oldpri)]) && t in k.queue[Ready(oldpri)]
    modifies k`queue, k`readyPrimap, k`schedtsk
    ensures k.SchedRep() && PriOk(k.queue, k.tcb)
    ensures var left := old(k.queue)[Ready(oldpri) := Remove(old(k.queue)[Ready(oldpri)], t)];
      k.queue == left[Ready(newpri) := left[Ready(newpri)] + [t]]
    ensures d <==> k.dspflg && k.schedtsk != old(k.schedtsk)
  {
    hide Mirrors, Set, Clear, PriOk, Sched, Remove;
    ghost var best := BestExists(k.queue, 0);
    OnlyThere(k.queue, tcb, best, t);
    Removed(k.readyPrimap, k.queue, tcb, best, t);
    k.queue := k.queue[Ready(oldpri) := Remove(k.queue[Ready(oldpri)], t)];
    if k.queue[Ready(oldpri)] == [] {
      k.readyPrimap := Clear(k.readyPrimap, oldpri);
    }
    ghost var left := k.queue;
    ghost var best' := BestExists(left, 0);
    OnlyThere(left, tcb, best', t);
    PriElsewhere(left, tcb, t, k.tcb[t]);
    Appended(k.readyPrimap, left, k.tcb, best', t);
    k.queue := k.queue[Ready(newpri) := k.queue[Ready(newpri)] + [t]];
    k.readyPrimap := Set(k.readyPrimap, newpri);
    if k.schedtsk == Some(t) {
      if newpri >= oldpri {
        NotZero(k.readyPrimap, k.queue, newpri);
        var best := SearchSchedtsk(k);
        k.schedtsk := Some(best);
        return best != t && k.dspflg;
      }
    } else {
      if newpri < k.tcb[k.schedtsk.value].priority {
        k.schedtsk := Some(t);
        return k.dspflg;
      }
    }
    return false;
  }

  lemma NotZero(m: bv16, queue: map<QName, seq<TaskId>>, pri: nat)
    requires HasReady(queue) && Mirrors(m, queue) && pri < TNUM_TPRI && queue[Ready(pri)] != []
    ensures m != 0
  {
    if m == 0 {
      EmptyHasNone(pri);
    }
  }

  /** change_priority. */
  method ChangePriority(k: Kernel, t: TaskId, newpri: nat) returns (d: bool)
    requires k.Rep() && CoreOk(k.View()) && t < |k.tcb| && !k.tcb[t].tstat.Dormant() && newpri < TNUM_TPRI
    modifies k`tcb, k`queue, k`readyPrimap, k`schedtsk
    ensures k.Rep()
    ensures var s' := S.ChangePriority(old(k.View()), t, newpri);
      k.tcb == s'.tcb && k.queue == s'.queue
    ensures d <==> k.dspflg && k.schedtsk != old(k.schedtsk)
  {
    hide CoreOk, Kernel.Timing, Mirrors, PriOk, Sched, Sorted, S.InsertTpri, S.ChangePriority, Remove;
    ghost var s := k.View();
    ReadyFacts(s);
    TaskFacts(s, t);
    ChangePriorityIs(s, t, newpri);
    var oldpri := k.tcb[t].priority;
    k.tcb := k.tcb[t := k.tcb[t].(priority := newpri)];
    if k.tcb[t].tstat.runnable {
      d := MoveReady(k, t, oldpri, newpri, s.tcb);
    } else {
      if k.tcb[t].tstat.WaitWobjcb() {
        var q := Wait(k.tcb[t].tstat.cause, k.tcb[t].wobj);
        WobjChangePriority(k, q, t);
        WaitQueueOnly(k.readyPrimap, s.queue, k.queue, q);
      }
      d := false;
    }
  }

  /** rotate_ready_queue. */
  method RotateReadyQueue(k: Kernel, pri: nat) returns (d: bool)
    requires k.SchedRep() && PriOk(k.queue, k.tcb) && pri < TNUM_TPRI && NoDup(k.queue[Ready(pri)])
    modifies k`queue, k`readyPrimap, k`schedtsk
    ensures k.SchedRep() && PriOk(k.queue, k.tcb)
    ensures k.queue == old(k.queue)[Ready(pri) := S.Rotate(old(k.queue)[Ready(pri)])]
    ensures d <==> k.dspflg && k.schedtsk != old(k.schedtsk)
  {
    hide Mirrors, Set, PriOk, Sched;
    ghost var best := BestExists(k.queue, 0);
    ghost var q := k.queue[Ready(pri)];
    SchedIs(k.queue, best);
    InQueue(k.queue, k.tcb, pri);
    if |k.queue[Ready(pri)]| > 1 {
      Update(k.readyPrimap, k.queue, best, pri, S.Rotate(q));
      UpdatePri(k.queue, k.tcb, pri, S.Rotate(q));
      var entry := k.queue[Ready(pri)][0];
      k.queue := k.queue[Ready(pri) := k.queue[Ready(pri)][1..] + [entry]];
      SchedIs(k.queue, best);
      if k.schedtsk == Some(entry) {
        OnlyThere(old(k.queue), k.tcb, best, entry);
        k.schedtsk := Some(k.queue[Ready(pri)][0]);
        return k.dspflg;
      }
    } else {
      assert S.Rotate(q) == q;
      assert k.queue == k.queue[Ready(pri) := q];
    }
    return false;
  }
}
