/**
 Event flags bit by bit: what every call returns, whom it wakes up and which bits it leaves,
 for every pattern and every mode of waiting.
 */
module FlagBits {
  import opened Common
  import opened KernelState
  import opened KernelSpec
  import opened ObjectSteps
  import opened EventFlags

  /** What `w` waits for is there: one of its bits, or all of them. */
  ghost predicate Holds(ptn: FlgPtn, w: FlgWait) {
    || (w.wfmode == TWF_ORW && exists b :: b in w.waiptn && b in ptn)
    || (w.wfmode == TWF_ANDW && forall b :: b in w.waiptn ==> b in ptn)
  }

  lemma HoldsIff(ptn: FlgPtn, w: FlgWait)
    requires w.Good()
    ensures Satisfied(ptn, w) <==> Holds(ptn, w)
  {
    OnBits(ptn, w);
  }

  /** A pattern that nobody can wait for, or another mode than one of the two. */
  predicate BadWait(w: FlgWait) {
    w.waiptn == {} || (w.wfmode != TWF_ORW && w.wfmode != TWF_ANDW)
  }

  /** Without TA_WMUL only one task can wait. */
  ghost predicate Occupied(x: FlgState, c: FlgConfig)
    requires FlgOk(x, c)
  {
    !c.wmul && x.s.queue[c.q] != []
  }

  /** The bits that are left of `ptn` when a wait is satisfied at once: with TA_CLR, none. */
  ghost predicate Left(ptn: FlgPtn, ptn': FlgPtn, clr: bool) {
    forall b :: b in ptn' <==> b in ptn && !clr
  }

  /** wai_flg and twai_flg: the error codes in their order; E_OK at once, with the pattern as it was, if
      and only if the condition holds; else the task waits. What is refused changes nothing. */
  lemma WaitOutcome(x: FlgState, c: FlgConfig, w: FlgWait, tmout: int)
    requires FlgOk(x, c)
    ensures var r := WaitStep(x, c, w, tmout);
      var bad := BadWait(w) || tmout < -1;
      var tested := MayWait(x.s) && !bad && !Occupied(x, c);
      && (r.out == Returns(E_CTX) <==> !MayWait(x.s))
      && (r.out == Returns(E_PAR) <==> MayWait(x.s) && bad)
      && (r.out == Returns(E_ILUSE) <==> MayWait(x.s) && !bad && Occupied(x, c))
      && (r.out == Returns(E_OK) <==> tested && Holds(x.flgptn, w))
      && (r.out == Returns(E_TMOUT) <==> tested && !Holds(x.flgptn, w) && tmout == 0)
      && (r.out == Blocks <==> tested && !Holds(x.flgptn, w) && tmout != 0)
      && (r.out == Returns(E_OK) ==> r.ptn == x.flgptn && Left(x.flgptn, r.x.flgptn, c.clr) && r.x == x.(flgptn := r.x.flgptn))
      && (r.out == Blocks ==> r.x.flgptn == x.flgptn && r.x.wait == x.wait[x.s.runtsk.value := w])
      && (r.out != Returns(E_OK) && r.out != Blocks ==> r.x == x)
  {
    hide FlgOk, Inv, WaitOn, Satisfied;
    if !BadWait(w) {
      HoldsIff(x.flgptn, w);
    }
    FlgQueue(x, c);
    WaitOutcomes(x, c, w, tmout);
  }

  lemma WaitOutcomes(x: FlgState, c: FlgConfig, w: FlgWait, tmout: int)
    requires FlgOk(x, c)
    ensures MayWait(x.s) ==> WaitOn(x.s, c.q, tmout).out == Blocks
  {
    hide FlgOk, Inv;
    FlgQueue(x, c);
  }

  /** pol_flg: the same without waiting. */
  lemma PollOutcome(x: FlgState, c: FlgConfig, w: FlgWait)
    requires FlgOk(x, c)
    ensures var r := PollStep(x, c, w);
      var tested := InTask(x.s) && !BadWait(w) && !Occupied(x, c);
      && (r.out == Returns(E_CTX) <==> !InTask(x.s))
      && (r.out == Returns(E_PAR) <==> InTask(x.s) && BadWait(w))
      && (r.out == Returns(E_ILUSE) <==> InTask(x.s) && !BadWait(w) && Occupied(x, c))
      && (r.out == Returns(E_OK) <==> tested && Holds(x.flgptn, w))
      && (r.out == Returns(E_TMOUT) <==> tested && !Holds(x.flgptn, w))
      && (r.out == Returns(E_OK) ==> r.ptn == x.flgptn && Left(x.flgptn, r.x.flgptn, c.clr) && r.x == x.(flgptn := r.x.flgptn))
      && (r.out != Returns(E_OK) ==> r.x == x)
  {
    hide FlgOk, Inv, Satisfied;
    if !BadWait(w) {
      HoldsIff(x.flgptn, w);
    }
    FlgQueue(x, c);
  }

  /** clr_flg keeps the bits of its argument and clears all others; nobody is woken up. */
  lemma ClearOutcome(x: FlgState, c: FlgConfig, clrptn: FlgPtn)
    requires FlgOk(x, c)
    ensures var r := ClearStep(x, c, clrptn);
      && r.out == (if InTask(x.s) then Returns(E_OK) else Returns(E_CTX))
      && r.x == x.(flgptn := r.x.flgptn)
      && forall b :: b in r.x.flgptn <==> b in x.flgptn && (InTask(x.s) ==> b in clrptn)
  {
    hide FlgOk;
  }

  lemma QueuedWait(x: FlgState, c: FlgConfig)
    requires FlgOk(x, c)
    ensures forall t :: t in x.s.queue[c.q] ==> t in x.wait && x.wait[t].Good() && t < |x.s.tcb|
    ensures Inv(x.s) && NoDup(x.s.queue[c.q])
  {
    hide Inv, Satisfied;
    ObjectQueue(x.s, c.q);
  }

  /** set_flg and iset_flg: the bits are set. Each waiting task, in the order of the queue, is woken up if and
      only if what it waits for is there then, with TA_CLR only the first such task; each sees
      the pattern with the new bits; and with TA_CLR, all bits are cleared if one is woken up. */
  lemma SetOutcome(x: FlgState, c: FlgConfig, setptn: FlgPtn, fromInt: bool) returns (ptn: FlgPtn)
    requires FlgOk(x, c)
    ensures var r := SetStep(x, c, setptn, fromInt);
      r.out == (if InContext(x.s, fromInt) then Returns(E_OK) else Returns(E_CTX))
    ensures !InContext(x.s, fromInt) ==> SetStep(x, c, setptn, fromInt).x == x
    ensures forall b :: b in ptn <==> b in x.flgptn || b in setptn
    ensures InContext(x.s, fromInt) ==>
      var y := SetStep(x, c, setptn, fromInt).x;
      var q: seq<TaskId> := x.s.queue[c.q];
      && |y.s.tcb| == |x.s.tcb|
      && (forall i :: 0 <= i < |q| ==> q[i] in x.wait && q[i] < |x.s.tcb|)
      && (forall i :: 0 <= i < |q| ==>
        (y.s.tcb[q[i]].winfo == Wercd(E_OK) <==>
          Holds(ptn, x.wait[q[i]]) && (c.clr ==> forall j :: 0 <= j < i ==> !Holds(ptn, x.wait[q[j]]))))
      && (forall i :: 0 <= i < |q| && y.s.tcb[q[i]].winfo == Wercd(E_OK) ==> q[i] in y.seen && y.seen[q[i]] == ptn)
      && (forall b :: b in y.flgptn <==> b in ptn && !(c.clr && exists i :: 0 <= i < |q| && Holds(ptn, x.wait[q[i]])))
  {
    hide FlgOk, Inv, WakeUp, Woken, Report, Satisfied, Holds;
    FlgQueue(x, c);
    QueuedWait(x, c);
    ptn := SetBits(x.flgptn, setptn);
    if InContext(x.s, fromInt) {
      SetWakes(x, c, setptn, fromInt);
      var q := x.s.queue[c.q];
      var ws := Woken(q, ptn, x.wait, c.clr);
      WokenExactly(q, ptn, x.wait, c.clr);
      forall i | 0 <= i < |q|
        ensures q[i] in x.wait && (Satisfied(ptn, x.wait[q[i]]) <==> Holds(ptn, x.wait[q[i]]))
      {
        assert q[i] in q;
        HoldsIff(ptn, x.wait[q[i]]);
      }
      forall i | 0 <= i < |q|
        ensures q[i] in ws <==> Holds(ptn, x.wait[q[i]]) && (c.clr ==> forall j :: 0 <= j < i ==> !Holds(ptn, x.wait[q[j]]))
      {
        WokenAt(q, ptn, x.wait, c.clr, i);
      }
      if c.clr && ws != [] {
        assert ws[0] in ws;
        var i :| 0 <= i < |q| && q[i] == ws[0];
      }
      ReportIs(x.seen, ws, ptn);
    }
  }

  lemma ReportIs(seen: map<TaskId, FlgPtn>, ts: seq<TaskId>, ptn: FlgPtn)
    ensures forall t :: t in ts ==> t in Report(seen, ts, ptn) && Report(seen, ts, ptn)[t] == ptn
  {
  }

  /** Who is woken up, by the place in the queue. */
  lemma WokenAt(q: seq<TaskId>, ptn: FlgPtn, wait: map<TaskId, FlgWait>, clr: bool, i: nat)
    requires NoDup(q) && i < |q| && forall t :: t in q ==> t in wait
    ensures q[i] in Woken(q, ptn, wait, clr) <==>
      Satisfied(ptn, wait[q[i]]) && (clr ==> forall j :: 0 <= j < i ==> !Satisfied(ptn, wait[q[j]]))
  {
    hide Woken, Satisfied;
    WokenExactly(q, ptn, wait, clr);
    var ws := Woken(q, ptn, wait, clr);
    assert q[i] in q;
    if clr && ws != [] {
      assert ws[0] in ws;
      var k :| 0 <= k < |q| && q[k] == ws[0];
      assert forall t :: t in ws <==> t == ws[0];
    }
  }

  /** ini_flg: all waits end with E_DLT, and the pattern is the initial one. */
  lemma ResetOutcome(x: FlgState, c: FlgConfig)
    requires FlgOk(x, c)
    ensures var r := ResetStep(x, c);
      && r.out == (if InTask(x.s) then Returns(E_OK) else Returns(E_CTX))
      && (!InTask(x.s) ==> r.x == x)
      && (InTask(x.s) ==>
        && r.x.flgptn == c.iflgptn && c.q in r.x.s.queue && r.x.s.queue[c.q] == [] && |r.x.s.tcb| == |x.s.tcb|
        && forall t :: t in x.s.queue[c.q] ==> t < |x.s.tcb| && r.x.s.tcb[t].winfo == Wercd(E_DLT))
  {
    hide CoreOk, DispatchOk, ReleaseAll, Sched, Satisfied;
    if InTask(x.s) {
      ObjectQueue(x.s, c.q);
      FlushFacts(x.s, c.q, E_DLT);
    }
  }

  /** In every state of every run, what a waiting task waits for is not there. */
  lemma NothingThere(x: FlgState, c: FlgConfig, ops: seq<FlgOp>, y: FlgState)
    requires FlgOk(x, c) && FlgRun(x, c, ops, y)
    ensures c.q in y.s.queue && forall t :: t in y.s.queue[c.q] ==>
      && t in y.wait && !BadWait(y.wait[t])
      && (y.wait[t].wfmode == TWF_ORW ==> forall b :: b in y.wait[t].waiptn ==> b !in y.flgptn)
      && (y.wait[t].wfmode == TWF_ANDW ==> exists b :: b in y.wait[t].waiptn && b !in y.flgptn)
  {
    hide Inv, FlgRun, Satisfied;
    NobodyWaitsInVain(x, c, ops, y);
    forall t | t in y.s.queue[c.q]
      ensures !Holds(y.flgptn, y.wait[t])
    {
      HoldsIff(y.flgptn, y.wait[t]);
    }
  }
}
