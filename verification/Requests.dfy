/**
 Requests for wakeup and for activation: over every run, for every task, each request that was
 accepted is answered exactly once.
 */
module Requests {
  import opened Common
  import opened HeapLinks
  import opened KernelState
  import opened KernelSpec
  import opened KernelRuns
  import opened TaskFates

  function One(b: bool): nat {
    if b then 1 else 0
  }

  /** By what it returns, the step ends the task `t`. */
  predicate EndsTask(s: State, op: Op, t: TaskId)
    requires ShapeOk(s) && Enabled(s, op)
  {
    || (op.OpExtTsk? && InTask(s) && s.runtsk == Some(t))
    || (op.OpTerTsk? && op.tskid == t + 1 && OutcomeOf(s, op) == Returns(E_OK))
  }

  /** What has become of the wakeups of a task: how many calls of wup_tsk and iwup_tsk have
      returned E_OK; how many sleeps have ended with E_OK, and how many calls of slp_tsk and
      tslp_tsk have returned E_OK at once; how many requests can_wup has reported; and how many
      times the task has ended with a request. */
  datatype Wakeups = Wakeups(accepted: nat, woken: nat, taken: nat, cancelled: nat, dropped: nat)

  ghost function WakeupsDo(w: Wakeups, s: State, op: Op, t: TaskId): Wakeups
    requires Inv(s) && Enabled(s, op) && t < |s.tcb|
  {
    StepFate(s, op);
    var (c, c', out) := (s.tcb[t], Do(s, op).tcb[t], OutcomeOf(s, op));
    Wakeups(
      w.accepted + One((op.OpWupTsk? || op.OpIWupTsk?) && NamesTask(s, op, t) && out == Returns(E_OK)),
      w.woken + One(c.tstat.waiting && c.tstat.cause == SLP && !c'.tstat.waiting && c'.winfo == Wercd(E_OK)),
      w.taken + One(op.OpTslpTsk? && s.runtsk == Some(t) && out == Returns(E_OK)),
      w.cancelled + (if op.OpCanWup? && NamesTask(s, op, t) && out.Count? then out.n else 0),
      w.dropped + One(EndsTask(s, op, t) && c.wupque))
  }

  /** What has become of the activations of a task: how many calls of act_tsk and iact_tsk have
      returned E_OK, how many times the task has ended, and how many requests can_act has reported. */
  datatype Activations = Activations(accepted: nat, ended: nat, cancelled: nat)

  ghost function ActivationsDo(a: Activations, s: State, op: Op, t: TaskId): Activations
    requires Inv(s) && Enabled(s, op)
  {
    InvShape(s);
    var out := OutcomeOf(s, op);
    Activations(
      a.accepted + One((op.OpActTsk? || op.OpIActTsk?) && NamesTask(s, op, t) && out == Returns(E_OK)),
      a.ended + One(EndsTask(s, op, t)),
      a.cancelled + (if op.OpCanAct? && NamesTask(s, op, t) && out.Count? then out.n else 0))
  }

  lemma EndsIs(s: State, op: Op, t: TaskId)
    requires Inv(s) && Enabled(s, op) && t < |s.tcb|
    ensures ShapeOk(s) && (EndsTask(s, op, t) <==> Ends(s, op, t))
  {
    hide Inv, ShapeOk, OutcomeOf, Do, Verdict, Enabled;
    InvShape(s);
    RefusedExactly(s, op);
    ExitVerdict(s);
  }

  lemma ExitVerdict(s: State)
    ensures Verdict(s, OpExtTsk) == E_OK <==> InTask(s)
  {
  }

  /** Objects end the waits of tasks that wait on objects; and the running task does not wait. */
  lemma Waits(s: State, op: Op, t: TaskId)
    requires Inv(s) && Enabled(s, op) && t < |s.tcb|
    ensures |s.cfg.ipriority| == |s.tcb| && ShapeOk(s)
    ensures (op.OpEndWaits? || op.OpIEndWaits?) && t in op.ts ==> s.tcb[t].tstat.WaitWobj()
    ensures s.runtsk == Some(t) ==> !s.tcb[t].tstat.waiting
  {
    hide CoreOk, DispatchOk;
    NotWaiting(s);
    Sizes(s);
    if (op.OpEndWaits? || op.OpIEndWaits?) && t in op.ts {
      var i :| 0 <= i < |op.ts| && op.ts[i] == t;
    }
  }

  lemma Sizes(s: State)
    requires Inv(s)
    ensures |s.cfg.ipriority| == |s.tcb| && ShapeOk(s)
  {
    hide QueuesOk, TimersOk, Sorted, ClockOk, DispatchOk;
  }

  /** One step books every wakeup once. */
  lemma WakeupBalance(s: State, op: Op, t: TaskId)
    requires Inv(s) && Enabled(s, op) && t < |s.tcb|
    ensures ShapeOk(s) && |Do(s, op).tcb| == |s.tcb|
    ensures var w := WakeupsDo(Wakeups(0, 0, 0, 0, 0), s, op, t);
      w.accepted + One(s.tcb[t].wupque) == w.woken + w.taken + w.cancelled + w.dropped + One(Do(s, op).tcb[t].wupque)
  {
    hide Inv, ShapeOk, OutcomeOf, Do, Enabled, EndsTask, Fate;
    Waits(s, op, t);
    RefusedExactly(s, op);
    StepFate(s, op);
    EndsIs(s, op, t);
    SleeperAsks(s, t);
    if Verdict(s, op) == E_OK {
      if Ends(s, op, t) {
        EndsFate(s, op, t);
        hide Verdict, NamesTask;
      } else {
        FateIs(s, op, t);
        if s.tcb[t].tstat.waiting && s.tcb[t].tstat.cause == SLP {
          SleepEnds(s, op, t);
        }
        AcceptedWakeups(s, op, t);
        hide Verdict, NamesTask, Ends, NextTstat, NextWinfo, NextWupque, Accepted;
      }
    }
  }

  /** A sleep ends with E_OK if and only if a wakeup of the task is accepted. */
  lemma SleepEnds(s: State, op: Op, t: TaskId)
    requires Inv(s) && Enabled(s, op) && t < |s.tcb| && Verdict(s, op) == E_OK && s.tcb[t].tstat.waiting && s.tcb[t].tstat.cause == SLP
    ensures !NextTstat(s, op, t).waiting && NextWinfo(s, op, t) == Wercd(E_OK) <==> (op.OpWupTsk? || op.OpIWupTsk?) && NamesTask(s, op, t)
  {
    hide Inv, Verdict, NamesTask, Enabled;
    Waits(s, op, t);
    SleeperAsks(s, t);
  }

  /** What accepted calls return and what they make of the request. */
  lemma AcceptedWakeups(s: State, op: Op, t: TaskId)
    requires t < |s.tcb| && Verdict(s, op) == E_OK
    ensures NextWupque(s, op, t) ==
      if (op.OpWupTsk? || op.OpIWupTsk?) && NamesTask(s, op, t) then !(s.tcb[t].tstat.waiting && s.tcb[t].tstat.cause == SLP)
      else if (op.OpCanWup? && NamesTask(s, op, t)) || (op.OpTslpTsk? && s.runtsk == Some(t)) then false
      else s.tcb[t].wupque
    ensures op.OpCanWup? && NamesTask(s, op, t) ==> Accepted(s, op) == Count(One(s.tcb[t].wupque))
    ensures op.OpTslpTsk? && s.runtsk == Some(t) ==> (Accepted(s, op) == Returns(E_OK) <==> s.tcb[t].wupque)
    ensures op.OpWupTsk? || op.OpIWupTsk? ==> Accepted(s, op) == Returns(E_OK)
    ensures (op.OpWupTsk? || op.OpIWupTsk?) && NamesTask(s, op, t) && s.tcb[t].wupque ==>
      s.tcb[t].tstat.waiting && s.tcb[t].tstat.cause == SLP
  {
    if op.OpTslpTsk? || op.OpCanWup? || op.OpWupTsk? || op.OpIWupTsk? {
      ParameterOk(s, op);
      if NamesTask(s, op, t) {
        Verdicts(s, op, t);
      }
    }
    hide Verdict;
  }

  lemma Verdicts(s: State, op: Op, t: TaskId)
    requires t < |s.tcb| && Verdict(s, op) == E_OK && OnTask(op) && NamesTask(s, op, t)
    ensures Named(s, op) == t && Objection(s, op, t, s.tcb[t]) == E_OK
  {
  }

  /** The fate of a task that does not end. */
  lemma FateIs(s: State, op: Op, t: TaskId)
    requires t < |s.tcb| == |s.cfg.ipriority| && !Ends(s, op, t)
    ensures var c := Fate(s, op, t);
      && c.tstat == NextTstat(s, op, t) && c.wupque == NextWupque(s, op, t) && c.actque == NextActque(s, op, t)
      && c.winfo == NextWinfo(s, op, t) && c.priority == NextPriority(s, op, t)
  {
    hide Ends, NextTstat, NextWupque, NextActque, NextWinfo, NextPriority;
  }

  /** One step books every activation once. */
  lemma ActivationBalance(s: State, op: Op, t: TaskId)
    requires Inv(s) && Enabled(s, op) && t < |s.tcb|
    ensures ShapeOk(s) && |Do(s, op).tcb| == |s.tcb|
    ensures var a := ActivationsDo(Activations(0, 0, 0), s, op, t);
      a.accepted + Started(s.tcb[t]) == a.ended + a.cancelled + Started(Do(s, op).tcb[t])
  {
    hide Inv, ShapeOk, OutcomeOf, Do, Enabled, EndsTask, Fate;
    Waits(s, op, t);
    RefusedExactly(s, op);
    StepFate(s, op);
    EndsIs(s, op, t);
    BitsFit(s);
    if Verdict(s, op) == E_OK {
      if Ends(s, op, t) {
        EndsFate(s, op, t);
        EndsActive(s, op, t);
        hide Verdict, NamesTask;
      } else {
        FateIs(s, op, t);
        AcceptedActivations(s, op, t);
        hide Verdict, NamesTask, Ends, NextTstat, NextWinfo, NextActque, Accepted;
      }
    }
  }

  /** The activations that a task has got but not used up: it is active, and another one is requested. */
  function Started(c: Tcb): nat {
    One(!c.tstat.Dormant()) + One(c.actque)
  }

  lemma EndsActive(s: State, op: Op, t: TaskId)
    requires Inv(s) && t < |s.tcb| && Ends(s, op, t)
    ensures !s.tcb[t].tstat.Dormant() && (op.OpExtTsk? || op.OpTerTsk?)
  {
    hide Inv;
    NotWaiting(s);
    if op.OpTerTsk? {
      Verdicts(s, op, t);
    }
    hide Verdict;
  }

  lemma DormantNext(s: State, op: Op, t: TaskId)
    requires Inv(s) && t < |s.tcb| && Verdict(s, op) == E_OK
    ensures NextTstat(s, op, t).Dormant() <==> s.tcb[t].tstat.Dormant() && !((op.OpActTsk? || op.OpIActTsk?) && NamesTask(s, op, t))
  {
    hide Inv, WaitStart, WaitEnd, NamesTask, Verdict, Hits;
    StaysAway(s, op, t);
    if WaitEnd(s, op, t).None? && WaitStart(s, op, t).None? {
      HitDormant(s, op, t);
    }
  }

  /** Of a task whose waiting does not change. */
  lemma HitDormant(s: State, op: Op, t: TaskId)
    requires Inv(s) && t < |s.tcb| && Verdict(s, op) == E_OK && WaitEnd(s, op, t).None? && WaitStart(s, op, t).None?
    ensures NextTstat(s, op, t).Dormant() <==> s.tcb[t].tstat.Dormant() && !((op.OpActTsk? || op.OpIActTsk?) && NamesTask(s, op, t))
  {
    hide Inv, WaitStart, WaitEnd;
    BitsFit(s);
    if (op.OpSusTsk? || op.OpRsmTsk?) && NamesTask(s, op, t) {
      Verdicts(s, op, t);
    }
    hide Verdict, NamesTask;
  }

  /** A dormant task neither waits nor starts to. */
  lemma StaysAway(s: State, op: Op, t: TaskId)
    requires Inv(s) && t < |s.tcb|
    ensures s.tcb[t].tstat.Dormant() ==> WaitEnd(s, op, t).None? && WaitStart(s, op, t).None?
  {
    hide Inv, Verdict, NamesTask;
    NotWaiting(s);
  }

  lemma AcceptedActivations(s: State, op: Op, t: TaskId)
    requires Inv(s) && t < |s.tcb| && Verdict(s, op) == E_OK
    ensures var act := (op.OpActTsk? || op.OpIActTsk?) && NamesTask(s, op, t);
      && (NextTstat(s, op, t).Dormant() <==> s.tcb[t].tstat.Dormant() && !act)
      && (act ==> Accepted(s, op) == Returns(E_OK) && NextActque(s, op, t) == !s.tcb[t].tstat.Dormant() && !s.tcb[t].actque)
      && (op.OpCanAct? && NamesTask(s, op, t) ==> Accepted(s, op) == Count(One(s.tcb[t].actque)) && !NextActque(s, op, t))
      && (!act && !(op.OpCanAct? && NamesTask(s, op, t)) ==> NextActque(s, op, t) == s.tcb[t].actque)
  {
    hide Inv, NextTstat, NamesTask;
    BitsFit(s);
    DormantNext(s, op, t);
    if OnTask(op) && NamesTask(s, op, t) {
      Verdicts(s, op, t);
    }
    hide Verdict;
  }

  /** can_act and can_wup report the requests that there are, and leave none. */
  lemma CancelledAll(s: State, op: Op, t: TaskId)
    requires Inv(s) && Enabled(s, op) && t < |s.tcb| && (op.OpCanAct? || op.OpCanWup?)
    ensures ShapeOk(s) && |Do(s, op).tcb| == |s.tcb|
    ensures var (c, c') := (s.tcb[t], Do(s, op).tcb[t]);
      OutcomeOf(s, op).Count? && NamesTask(s, op, t) ==>
        && OutcomeOf(s, op).n == One(if op.OpCanAct? then c.actque else c.wupque)
        && c' == if op.OpCanAct? then c.(actque := false) else c.(wupque := false)
  {
    hide Inv, ShapeOk, OutcomeOf, Do, Enabled;
    Waits(s, op, t);
    RefusedExactly(s, op);
    StepFate(s, op);
    if Verdict(s, op) == E_OK && NamesTask(s, op, t) {
      Verdicts(s, op, t);
    }
    hide Verdict;
  }

  // ----- runs -----

  ghost function WakeupsOver(w: Wakeups, s: State, ops: seq<Op>, s': State, t: TaskId): Wakeups
    requires Inv(s) && Run(s, ops, s') && t < |s.tcb|
    decreases |ops|
  {
    if ops == [] then w
    else
      StepKeeps(s, ops[0]);
      StepFate(s, ops[0]);
      WakeupsOver(WakeupsDo(w, s, ops[0], t), Do(s, ops[0]), ops[1..], s', t)
  }

  ghost function ActivationsOver(a: Activations, s: State, ops: seq<Op>, s': State, t: TaskId): Activations
    requires Inv(s) && Run(s, ops, s') && t < |s.tcb|
    decreases |ops|
  {
    if ops == [] then a
    else
      StepKeeps(s, ops[0]);
      StepFate(s, ops[0]);
      ActivationsOver(ActivationsDo(a, s, ops[0], t), Do(s, ops[0]), ops[1..], s', t)
  }

  /** Every accepted wakeup of a task ends one sleep, or lets one call of slp_tsk return at once,
      or is reported by can_wup, or is dropped when the task ends, or is still requested. */
  lemma {:induction false} WakeupsAnswered(w: Wakeups, s: State, ops: seq<Op>, s': State, t: TaskId)
    requires Inv(s) && Run(s, ops, s') && t < |s.tcb|
    requires w.accepted == w.woken + w.taken + w.cancelled + w.dropped + One(s.tcb[t].wupque)
    ensures Inv(s') && t < |s'.tcb|
    ensures var w' := WakeupsOver(w, s, ops, s', t);
      w'.accepted == w'.woken + w'.taken + w'.cancelled + w'.dropped + One(s'.tcb[t].wupque)
    decreases |ops|
  {
    hide Inv, ShapeOk, Do, Enabled, OutcomeOf, EndsTask, Fate;
    if ops != [] {
      StepKeeps(s, ops[0]);
      StepFate(s, ops[0]);
      WakeupBalance(s, ops[0], t);
      WakeupsAnswered(WakeupsDo(w, s, ops[0], t), Do(s, ops[0]), ops[1..], s', t);
    }
  }

  /** Every accepted activation of a task is one time that it has run to its end, or is reported
      by can_act, or the task is active, or it is still requested. */
  lemma {:induction false} ActivationsAnswered(a: Activations, s: State, ops: seq<Op>, s': State, t: TaskId)
    requires Inv(s) && Run(s, ops, s') && t < |s.tcb|
    requires a.accepted == a.ended + a.cancelled + Started(s.tcb[t])
    ensures Inv(s') && t < |s'.tcb|
    ensures var a' := ActivationsOver(a, s, ops, s', t);
      a'.accepted == a'.ended + a'.cancelled + Started(s'.tcb[t])
    decreases |ops|
  {
    hide Inv, ShapeOk, Do, Enabled, OutcomeOf, EndsTask, Fate, Started;
    if ops != [] {
      StepKeeps(s, ops[0]);
      StepFate(s, ops[0]);
      ActivationBalance(s, ops[0], t);
      ActivationsAnswered(ActivationsDo(a, s, ops[0], t), Do(s, ops[0]), ops[1..], s', t);
    }
  }

  /** From start-up on, the activation by TA_ACT included. */
  lemma RequestsFromStart(cfg: Config, torder: seq<TaskId>, act: set<TaskId>, sta: seq<bool>, ops: seq<Op>, s': State, t: TaskId)
    requires cfg.Ok() && |sta| == |cfg.cycphs| && AllTasks(torder, |cfg.ipriority|) && NoDup(torder) && t < |cfg.ipriority|
    requires Run(Boot(cfg, torder, act, sta), ops, s')
    ensures Inv(Boot(cfg, torder, act, sta)) && |Boot(cfg, torder, act, sta).tcb| == |cfg.ipriority| && t < |s'.tcb|
    ensures var w := WakeupsOver(Wakeups(0, 0, 0, 0, 0), Boot(cfg, torder, act, sta), ops, s', t);
      w.accepted == w.woken + w.taken + w.cancelled + w.dropped + One(s'.tcb[t].wupque)
    ensures var a := ActivationsOver(Activations(One(t in torder && t in act), 0, 0), Boot(cfg, torder, act, sta), ops, s', t);
      a.accepted == a.ended + a.cancelled + One(!s'.tcb[t].tstat.Dormant()) + One(s'.tcb[t].actque)
  {
    hide Inv, Boot, Run, WakeupsOver, ActivationsOver, CoreOk;
    BootOk(cfg, torder, act, sta);
    BootIs(cfg, torder, act, sta);
    WakeupsAnswered(Wakeups(0, 0, 0, 0, 0), Boot(cfg, torder, act, sta), ops, s', t);
    ActivationsAnswered(Activations(One(t in torder && t in act), 0, 0), Boot(cfg, torder, act, sta), ops, s', t);
  }

  /** A task that ext_tsk or ter_tsk has ended is as at start-up: without requests and timer, of its
      initial priority, and active again only if that was requested; and no other task changes. */
  lemma EndedIsFresh(s: State, op: Op, t: TaskId)
    requires Inv(s) && Enabled(s, op) && t < |s.tcb| && ShapeOk(s) && EndsTask(s, op, t)
    ensures var s' := Do(s, op);
      && Inv(s') && |s'.tcb| == |s.tcb| && TaskTimer(t) !in s'.pending
      && s'.tcb[t].tstat == (if s.tcb[t].actque then TS_RUNNABLE else TS_DORMANT)
      && s'.tcb[t].priority == s.cfg.ipriority[t] && !s'.tcb[t].actque && !s'.tcb[t].wupque
      && forall u: nat :: u < |s.tcb| && u != t ==> s'.tcb[u] == s.tcb[u]
  {
    hide Inv, OutcomeOf, Do, Enabled, Fate, EndsTask, QueueNames, Verdict;
    StepKeeps(s, op);
    StepFate(s, op);
    EndsIs(s, op, t);
    EndsFate(s, op, t);
    NoTimer(Do(s, op), t);
    forall u: nat | u < |s.tcb| && u != t
      ensures Fate(s, op, u) == s.tcb[u]
    {
      EndsOne(s, op, t, u);
      Spared(s, op, u);
    }
  }

  lemma EndsOne(s: State, op: Op, t: TaskId, u: TaskId)
    requires t < |s.tcb| && u < |s.tcb| && u != t && Ends(s, op, t)
    ensures !Ends(s, op, u) && WaitEnd(s, op, u).None? && WaitStart(s, op, u).None? && !Hits(s, op, u) && !op.OpTslpTsk?
  {
    hide Verdict;
  }

  lemma NoTimer(s: State, t: TaskId)
    requires Inv(s) && t < |s.tcb| && !s.tcb[t].tstat.waiting
    ensures TaskTimer(t) !in s.pending
  {
    hide QueuesOk, Sorted, ClockOk, DispatchOk;
    assert TaskTimer(t) in s.pending <==> Armed(s.tcb, s.cyc, s.alm, TaskTimer(t));
  }
}
