/**
 Which task runs: the first of the best priority, from the moment on when it may. Over runs:
 a task is not overtaken by later or worse ones, a priority holds until it is changed, dispatching
 stays disabled until it is enabled, interrupt handlers do not switch tasks.
 */
module WhoRuns {
  import opened Common
  import opened WordTime
  import opened SystemTime
  import opened KernelState
  import opened KernelSpec
  import opened KernelRuns
  import opened TaskFates
  import opened Precedence

  // ----- the best task -----

  /** `t` is runnable, and every other runnable task has a worse priority, or the same one and
      has become runnable, or been sent back, later. */
  ghost predicate ComesFirst(s: State, t: TaskId) {
    && t < |s.tcb| && s.tcb[t].tstat.runnable && Ready(s.tcb[t].priority) in s.queue
    && forall u: nat :: u < |s.tcb| && u != t && s.tcb[u].tstat.runnable ==>
      || s.tcb[t].priority < s.tcb[u].priority
      || (s.tcb[t].priority == s.tcb[u].priority && Before(s.queue[Ready(s.tcb[t].priority)], t, u))
  }

  /** The head of the first ready queue that is not empty. */
  lemma {:induction false} BestFromIs(s: State, p: nat)
    requires CoreOk(s) && forall t: nat :: t < |s.tcb| && s.tcb[t].tstat.runnable ==> p <= s.tcb[t].priority
    ensures BestFrom(s.queue, p).Some? ==> ComesFirst(s, BestFrom(s.queue, p).value)
    ensures BestFrom(s.queue, p).None? ==> forall t: nat :: t < |s.tcb| ==> !s.tcb[t].tstat.runnable
    decreases TNUM_TPRI - p
  {
    hide CoreOk;
    if p < TNUM_TPRI {
      ReadyParts(s, p);
      var q := s.queue[Ready(p)];
      if q != [] {
        HeadFirst(s, p);
      } else {
        BestFromIs(s, p + 1);
      }
    } else {
      PrioritiesOk(s);
    }
  }

  lemma PrioritiesOk(s: State)
    requires CoreOk(s)
    ensures forall t: nat :: t < |s.tcb| ==> s.tcb[t].priority < TNUM_TPRI
  {
    hide QueuesOk, TimersOk, Sorted, ClockOk;
    forall t: nat | t < |s.tcb|
      ensures s.tcb[t].priority < TNUM_TPRI
    {
      assert TaskOk(s.cfg, t, s.tcb[t]);
    }
  }

  lemma HeadFirst(s: State, p: nat)
    requires CoreOk(s) && p < TNUM_TPRI && forall t: nat :: t < |s.tcb| && s.tcb[t].tstat.runnable ==> p <= s.tcb[t].priority
    requires Ready(p) in s.queue && s.queue[Ready(p)] != []
    ensures ComesFirst(s, s.queue[Ready(p)][0])
  {
    hide CoreOk;
    ReadyParts(s, p);
    var q := s.queue[Ready(p)];
    assert q[0] in q;
    forall u: nat | u < |s.tcb| && u != q[0] && s.tcb[u].tstat.runnable && s.tcb[u].priority == p
      ensures Before(q, q[0], u)
    {
      var j :| 0 <= j < |q| && q[j] == u;
      assert 0 < j;
    }
  }

  /** Two tasks cannot both come first. */
  lemma OneFirst(s: State, t: TaskId, u: TaskId)
    requires CoreOk(s) && ComesFirst(s, t) && ComesFirst(s, u)
    ensures t == u
  {
    hide CoreOk;
    PrioritiesOk(s);
    ReadyParts(s, s.tcb[t].priority);
    BeforeOnce(s.queue[Ready(s.tcb[t].priority)], t, u);
  }

  lemma BeforeOnce(q: seq<TaskId>, a: TaskId, b: TaskId)
    requires NoDup(q)
    ensures !(Before(q, a, b) && Before(q, b, a))
  {
  }

  /** The scheduler's choice is the task that comes first. */
  lemma SchedIsFirst(s: State, t: TaskId)
    requires CoreOk(s)
    ensures Sched(s.queue) == Some(t) <==> ComesFirst(s, t)
    ensures Sched(s.queue) == None <==> forall u: nat :: u < |s.tcb| ==> !s.tcb[u].tstat.runnable
  {
    hide CoreOk, ComesFirst;
    BestFromIs(s, 0);
    if ComesFirst(s, t) {
      FirstRunnable(s, t);
      OneFirst(s, t, Sched(s.queue).value);
    }
    if Sched(s.queue).Some? {
      FirstRunnable(s, Sched(s.queue).value);
    }
  }

  lemma FirstRunnable(s: State, t: TaskId)
    requires ComesFirst(s, t)
    ensures t < |s.tcb| && s.tcb[t].tstat.runnable
  {
  }

  // ----- first come, first served -----

  /** `a` is runnable, and `b` is not or comes after `a`. */
  ghost predicate Behind(s: State, a: TaskId, b: TaskId) {
    && a < |s.tcb| && b < |s.tcb| && a != b && s.tcb[a].tstat.runnable && Ready(s.tcb[a].priority) in s.queue
    && (s.tcb[b].tstat.runnable ==>
      || s.tcb[a].priority < s.tcb[b].priority
      || (s.tcb[a].priority == s.tcb[b].priority && Before(s.queue[Ready(s.tcb[a].priority)], a, b)))
  }

  /** From `s` to `s'` the task `a` stays runnable at its priority, and `b` gets no better one. */
  predicate Stays(s: State, s': State, a: TaskId, b: TaskId) {
    && a < |s.tcb| == |s'.tcb| && b < |s.tcb|
    && s'.tcb[a].tstat.runnable && s'.tcb[a].priority == s.tcb[a].priority <= s'.tcb[b].priority
  }

  lemma BehindStep(s: State, op: Op, a: TaskId, b: TaskId)
    requires Inv(s) && Enabled(s, op) && Behind(s, a, b) && a !in SentBack(s, op)
    requires ShapeOk(s) && Stays(s, Do(s, op), a, b)
    ensures Inv(Do(s, op)) && Behind(Do(s, op), a, b)
  {
    hide Inv, Enabled, Do, SentBack;
    var s' := Do(s, op);
    StepKeeps(s, op);
    CoreIs(s);
    CoreIs(s');
    PrioritiesOk(s);
    var p := s.tcb[a].priority;
    ReadyParts(s, p);
    ReadyParts(s', p);
    StepOrdered(s, op, p);
  }

  /** Over the whole run, `a` stays runnable at its priority and is not sent back, and `b` gets no
      better one. */
  ghost predicate KeepsPlace(s: State, ops: seq<Op>, s': State, a: TaskId, b: TaskId)
    requires Run(s, ops, s')
    decreases |ops|
  {
    ops != [] ==>
      && a !in SentBack(s, ops[0]) && Stays(s, Do(s, ops[0]), a, b)
      && KeepsPlace(Do(s, ops[0]), ops[1..], s', a, b)
  }

  /** A task that waits for the processor is never overtaken by one that was behind it: not in
      any run in which it stays runnable and is not sent back, and the other one gets no better
      priority; however often the other one stops being runnable and becomes it again. */
  lemma {:induction false} NeverOvertaken(s: State, ops: seq<Op>, s': State, a: TaskId, b: TaskId)
    requires Inv(s) && Run(s, ops, s') && Behind(s, a, b) && KeepsPlace(s, ops, s', a, b)
    ensures Inv(s') && Behind(s', a, b) && Sched(s'.queue) != Some(b)
    ensures !s'.intctx && s'.dspflg ==> s'.runtsk != Some(b)
    decreases |ops|
  {
    hide Inv, ShapeOk, Enabled, Do, SentBack, Stays, Behind;
    if ops == [] {
      NotFirst(s, a, b);
      Dispatched(s);
    } else {
      BehindStep(s, ops[0], a, b);
      NeverOvertaken(Do(s, ops[0]), ops[1..], s', a, b);
    }
  }

  lemma NotFirst(s: State, a: TaskId, b: TaskId)
    requires Inv(s) && Behind(s, a, b)
    ensures Sched(s.queue) != Some(b)
  {
    hide Inv;
    CoreIs(s);
    SchedIsFirst(s, b);
    PrioritiesOk(s);
    ReadyParts(s, s.tcb[a].priority);
    BeforeOnce(s.queue[Ready(s.tcb[a].priority)], a, b);
  }

  lemma Dispatched(s: State)
    requires Inv(s)
    ensures !s.intctx && s.dspflg ==> s.runtsk == Sched(s.queue)
  {
    hide CoreOk, Sched;
  }

  // ----- chg_pri -----

  /** When chg_pri is accepted and refused, and the priority that it sets. */
  lemma ChgPriSets(s: State, tskid: int, tskpri: int)
    requires Inv(s)
    ensures ShapeOk(s) && Enabled(s, OpChgPri(tskid, tskpri))
    ensures var op := OpChgPri(tskid, tskpri);
      var (s', out) := (Do(s, op), OutcomeOf(s, op));
      var id := 0 <= tskid <= |s.tcb|;
      var par := 0 <= tskpri <= 16;
      && (out == Returns(E_CTX) <==> !InTask(s))
      && (out == Returns(E_ID) <==> InTask(s) && !id)
      && (out == Returns(E_PAR) <==> InTask(s) && id && !par)
      && (out == Returns(E_OBJ) <==> InTask(s) && id && par && s.tcb[if tskid == 0 then s.runtsk.value else tskid - 1].tstat.Dormant())
      && (out == Returns(E_OK) || (out != Returns(E_OK) && s' == s))
      && (out == Returns(E_OK) ==>
        && InTask(s) && id && par
        && var t := if tskid == 0 then s.runtsk.value else tskid - 1;
        && |s'.tcb| == |s.tcb| && (forall u: nat :: u < |s.tcb| && u != t ==> s'.tcb[u] == s.tcb[u])
        && s'.tcb[t] == s.tcb[t].(priority := s'.tcb[t].priority)
        && (tskpri > 0 ==> s'.tcb[t].priority + 1 == tskpri)
        && (tskpri == 0 ==> s'.tcb[t].priority == s.cfg.ipriority[t]))
  {
    hide Inv, Do, OutcomeOf, Fate, QueueNames;
    var op := OpChgPri(tskid, tskpri);
    CoreIs(s);
    RefusedExactly(s, op);
    StepFate(s, op);
    if Verdict(s, op) == E_OK {
      NamedTask(s, op);
      PriorityFate(s, op, Named(s, op));
      forall u: nat | u < |s.tcb| && u != Named(s, op)
        ensures Fate(s, op, u) == s.tcb[u]
      {
        NotNamed(s, op, u);
        Spared(s, op, u);
      }
    }
  }

  /** The step neither changes the priority of `t` nor ends it. */
  predicate LeavesPriority(s: State, op: Op, t: TaskId) {
    !(op.OpChgPri? && Hits(s, op, t)) && !Ends(s, op, t)
  }

  /** No step of the run does. */
  ghost predicate Settled(s: State, ops: seq<Op>, s': State, t: TaskId)
    requires Run(s, ops, s')
    decreases |ops|
  {
    ops != [] ==> LeavesPriority(s, ops[0], t) && Settled(Do(s, ops[0]), ops[1..], s', t)
  }

  lemma PriorityStays(s: State, op: Op, t: TaskId)
    requires Inv(s) && Enabled(s, op) && t < |s.tcb| && LeavesPriority(s, op, t)
    ensures ShapeOk(s) && |Do(s, op).tcb| == |s.tcb| && Do(s, op).tcb[t].priority == s.tcb[t].priority
  {
    hide Inv, Enabled, Do, Ends, Hits, NextTstat, NextWinfo, NextActque, NextWupque, WaitStart, QueueNames;
    CoreIs(s);
    StepFate(s, op);
    assert Do(s, op).tcb[t] == Fate(s, op, t);
  }

  /** A priority holds until it is changed by chg_pri or the task ends. */
  lemma {:induction false} PriorityHolds(s: State, ops: seq<Op>, s': State, t: TaskId)
    requires Inv(s) && Run(s, ops, s') && t < |s.tcb| && Settled(s, ops, s', t)
    ensures Inv(s') && |s'.tcb| == |s.tcb| && s'.tcb[t].priority == s.tcb[t].priority
    decreases |ops|
  {
    hide Inv, ShapeOk, Enabled, Do, LeavesPriority;
    if ops != [] {
      StepKeeps(s, ops[0]);
      PriorityStays(s, ops[0], t);
      PriorityHolds(Do(s, ops[0]), ops[1..], s', t);
    }
  }

  /** Of two tasks that chg_pri has given the priorities p < q, whatever else has happened in between
      and since, the second one does not run while the first one can. */
  lemma BetterPriorityRuns(
      s1: State, a: TaskId, p: int, ops1: seq<Op>, s2: State, b: TaskId, q: int, ops2: seq<Op>, s3: State)
    requires Inv(s1) && a < |s1.tcb| && b < |s1.tcb| && a != b && 1 <= p < q
    requires ShapeOk(s1) && OutcomeOf(s1, OpChgPri(a + 1, p)) == Returns(E_OK)
    requires Run(Do(s1, OpChgPri(a + 1, p)), ops1, s2) && Settled(Do(s1, OpChgPri(a + 1, p)), ops1, s2, a)
    requires ShapeOk(s2) && OutcomeOf(s2, OpChgPri(b + 1, q)) == Returns(E_OK)
    requires Run(Do(s2, OpChgPri(b + 1, q)), ops2, s3)
    requires Settled(Do(s2, OpChgPri(b + 1, q)), ops2, s3, a) && Settled(Do(s2, OpChgPri(b + 1, q)), ops2, s3, b)
    ensures |s3.tcb| == |s1.tcb| && s3.tcb[a].priority + 1 == p && s3.tcb[b].priority + 1 == q
    ensures s3.tcb[a].tstat.runnable ==> Sched(s3.queue) != Some(b)
    ensures s3.tcb[a].tstat.runnable && !s3.intctx && s3.dspflg ==> s3.runtsk != Some(b)
  {
    hide Inv, ShapeOk, Do, OutcomeOf, Settled, Run;
    var op1, op2 := OpChgPri(a + 1, p), OpChgPri(b + 1, q);
    ChgPriSets(s1, a + 1, p);
    StepKeeps(s1, op1);
    PriorityHolds(Do(s1, op1), ops1, s2, a);
    ChgPriSets(s2, b + 1, q);
    StepKeeps(s2, op2);
    PriorityHolds(Do(s2, op2), ops2, s3, a);
    PriorityHolds(Do(s2, op2), ops2, s3, b);
    if s3.tcb[a].tstat.runnable {
      BetterFirst(s3, a, b);
      Dispatched(s3);
    }
  }

  lemma BetterFirst(s: State, a: TaskId, b: TaskId)
    requires Inv(s) && a < |s.tcb| && b < |s.tcb| && s.tcb[a].tstat.runnable && s.tcb[a].priority < s.tcb[b].priority
    ensures Sched(s.queue) != Some(b)
  {
    hide Inv;
    CoreIs(s);
    SchedIsFirst(s, b);
  }

  // ----- rot_rdq -----

  /** The place `i` places after place `n` in a ring of `m`. */
  function Place(i: nat, n: nat, m: nat): (k: nat)
    requires m > 0
    ensures k < m
  {
    (i + n) % m
  }

  lemma NextPlace(i: nat, n: nat, m: nat)
    requires m > 0
    ensures Place(Place(i, n, m), 1, m) == Place(i, n + 1, m)
  {
    WordAdd(i + n, 1, m);
  }

  /** `q'` is `q` turned by `n` places. */
  ghost predicate Turned(q: seq<TaskId>, q': seq<TaskId>, n: nat) {
    |q'| == |q| && forall i :: 0 <= i < |q| ==> q'[i] == q[Place(i, n, |q|)]
  }

  lemma TurnedTwice(q: seq<TaskId>, q1: seq<TaskId>, q2: seq<TaskId>, n: nat)
    requires Turned(q, q1, 1) && Turned(q1, q2, n)
    ensures Turned(q, q2, n + 1)
  {
    hide Place;
    forall i | 0 <= i < |q|
      ensures q2[i] == q[Place(i, n + 1, |q|)]
    {
      NextPlace(i, n, |q|);
      assert q2[i] == q1[Place(i, n, |q|)];
    }
  }

  /** The ready queue that is meant turns by one place: the first task goes to the end, and the
      others move up by one. Nothing else changes in queues and tasks. */
  lemma RotRdqTurns(s: State, op: Op)
    requires Inv(s) && (op.OpRotRdq? || op.OpIRotRdq?) && ShapeOk(s) && Enabled(s, op) && OutcomeOf(s, op) == Returns(E_OK)
    ensures 0 <= op.tskpri <= 16 && (op.tskpri == 0 ==> InTask(s))
    ensures var s' := Do(s, op);
      var n := Ready(if op.tskpri > 0 then op.tskpri - 1 else s.tcb[s.runtsk.value].priority);
      && s'.tcb == s.tcb && s'.queue.Keys == s.queue.Keys && n in s.queue
      && (forall m :: m in s.queue && m != n ==> s'.queue[m] == s.queue[m])
      && Turned(s.queue[n], s'.queue[n], 1)
  {
    hide CoreOk, DispatchOk, Sched, RotateReady;
    CoreIs(s);
    PrioritiesOk(s);
    if op.OpRotRdq? {
      RotRdqIs(s, op.tskpri);
    } else {
      IRotRdqIs(s, op.tskpri);
    }
    var pri := if op.tskpri > 0 then op.tskpri - 1 else s.tcb[s.runtsk.value].priority;
    ReadyParts(s, pri);
    OneTurn(s, pri);
  }

  lemma RotRdqIs(s: State, tskpri: int)
    requires ShapeOk(s) && OutcomeOf(s, OpRotRdq(tskpri)) == Returns(E_OK)
    ensures 0 <= tskpri <= 16 && InTask(s)
    ensures var s1 := RotateReady(s, if tskpri > 0 then tskpri - 1 else s.tcb[s.runtsk.value].priority);
      Do(s, OpRotRdq(tskpri)).tcb == s1.tcb && Do(s, OpRotRdq(tskpri)).queue == s1.queue
  {
    hide ShapeOk, Sched, RotateReady;
  }

  lemma IRotRdqIs(s: State, tskpri: int)
    requires ShapeOk(s) && OutcomeOf(s, OpIRotRdq(tskpri)) == Returns(E_OK)
    ensures 1 <= tskpri <= 16
    ensures var s1 := RotateReady(s, tskpri - 1);
      Do(s, OpIRotRdq(tskpri)).tcb == s1.tcb && Do(s, OpIRotRdq(tskpri)).queue == s1.queue
  {
    hide ShapeOk, Sched, RotateReady;
  }

  lemma OneTurn(s: State, pri: nat)
    requires Ready(pri) in s.queue
    ensures var (s', n) := (RotateReady(s, pri), Ready(pri));
      && s'.tcb == s.tcb && s'.queue.Keys == s.queue.Keys
      && (forall m :: m in s.queue && m != n ==> s'.queue[m] == s.queue[m])
      && Turned(s.queue[n], s'.queue[n], 1)
  {
    var q := s.queue[Ready(pri)];
    forall i | 0 <= i < |q|
      ensures Rotate(q)[i] == q[Place(i, 1, |q|)]
    {
      if i + 1 < |q| {
        SmallWord(i + 1, |q|);
      }
    }
  }

  /** With n calls of irot_rdq for a priority, the round robin gets n places further: the i-th
      task is first after i calls, and after as many calls as there are tasks all is as before. */
  lemma {:induction false} RoundRobin(s: State, tskpri: int, n: nat) returns (s': State)
    requires Inv(s) && s.intctx && 1 <= tskpri <= 16
    ensures Inv(s') && Run(s, seq(n, _ => OpIRotRdq(tskpri)), s') && s'.tcb == s.tcb
    ensures Ready(tskpri - 1) in s.queue && Ready(tskpri - 1) in s'.queue
    ensures Turned(s.queue[Ready(tskpri - 1)], s'.queue[Ready(tskpri - 1)], n)
    decreases n
  {
    hide Inv, Do, OutcomeOf, ShapeOk, Turned, Enabled;
    var op := OpIRotRdq(tskpri);
    CoreIs(s);
    ReadyParts(s, tskpri - 1);
    if n == 0 {
      s' := s;
      assert seq(n, _ => op) == [];
      NoTurn(s.queue[Ready(tskpri - 1)]);
    } else {
      RotationAccepted(s, tskpri);
      RotRdqTurns(s, op);
      StepKeeps(s, op);
      var s1 := Do(s, op);
      s' := RoundRobin(s1, tskpri, n - 1);
      assert seq(n, _ => op)[0] == op && seq(n, _ => op)[1..] == seq(n - 1, _ => op);
      TurnedTwice(s.queue[Ready(tskpri - 1)], s1.queue[Ready(tskpri - 1)], s'.queue[Ready(tskpri - 1)], n - 1);
    }
  }

  lemma NoTurn(q: seq<TaskId>)
    ensures Turned(q, q, 0)
  {
    forall i | 0 <= i < |q|
      ensures Place(i, 0, |q|) == i
    {
      SmallWord(i, |q|);
    }
  }

  lemma RotationAccepted(s: State, tskpri: int)
    requires Inv(s) && s.intctx && 1 <= tskpri <= 16
    ensures ShapeOk(s) && Enabled(s, OpIRotRdq(tskpri)) && OutcomeOf(s, OpIRotRdq(tskpri)) == Returns(E_OK)
    ensures Do(s, OpIRotRdq(tskpri)).intctx
  {
    hide CoreOk, DispatchOk, Sched;
    CoreIs(s);
  }
}
