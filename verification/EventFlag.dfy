/**
 eventflag.c: one event flag. In every state no waiting task's condition is satisfied.
 */
module EventFlags {
  import opened Common
  import opened KernelState
  import opened KernelRuns
  import opened KernelFacts
  import opened WaitSteps
  import opened ObjectSteps
  import opened ReadyQueue
  import opened Kernels
  import opened ObjectCalls
  import opened Waiting
  import opened TaskManage
  import opened TaskSync
  import S = KernelSpec

  const TWF_ORW: nat := 1
  const TWF_ANDW: nat := 2

  /** FLGPTN, as the set of the bits that are 1: their number, TBIT_FLGPTN, does not matter. */
  type FlgPtn = set<nat>

  const NO_BITS: FlgPtn := {}

  datatype FlgWait = FlgWait(waiptn: FlgPtn, wfmode: nat) {
    /** (wfmode & TWF_ORW) != 0. */
    predicate OrMode() { wfmode % 2 == 1 }

    /** The parameter checks of wai_flg, pol_flg and twai_flg. */
    predicate Good() { waiptn != NO_BITS && (wfmode == TWF_ORW || wfmode == TWF_ANDW) }
  }

  /** The kernel with an event flag: its pattern, what tasks wait for, and the patterns that
      their waits have ended with (WINFO_FLG). */
  datatype FlgState = FlgState(s: State, flgptn: FlgPtn, wait: map<TaskId, FlgWait>, seen: map<TaskId, FlgPtn>)

  datatype FlgResult = FlgResult(x: FlgState, out: S.Outcome, ptn: FlgPtn)

  /** What the configurator generates: TA_CLR and TA_WMUL in flgatr, and the initial pattern. */
  datatype FlgConfig = FlgConfig(q: QName, clr: bool, wmul: bool, iflgptn: FlgPtn)

  /** The condition that check_flg_cond checks. */
  predicate Satisfied(ptn: FlgPtn, w: FlgWait) {
    if w.OrMode() then ptn * w.waiptn != NO_BITS else ptn * w.waiptn == w.waiptn
  }

  /** A bit, or all bits: what the two modes mean. */
  lemma OnBits(ptn: FlgPtn, w: FlgWait)
    ensures w.wfmode == TWF_ORW ==> (Satisfied(ptn, w) <==> exists b :: b in w.waiptn && b in ptn)
    ensures w.wfmode == TWF_ANDW ==> (Satisfied(ptn, w) <==> forall b :: b in w.waiptn ==> b in ptn)
  {
    if w.wfmode == TWF_ORW && exists b :: b in w.waiptn && b in ptn {
      var b :| b in w.waiptn && b in ptn;
      assert b in ptn * w.waiptn;
    }
    if w.wfmode == TWF_ANDW && Satisfied(ptn, w) {
      forall b | b in w.waiptn
        ensures b in ptn
      {
        assert b in ptn * w.waiptn;
      }
    }
  }

  function SetBits(ptn: FlgPtn, setptn: FlgPtn): FlgPtn {
    ptn + setptn
  }

  function KeepBits(ptn: FlgPtn, clrptn: FlgPtn): FlgPtn {
    ptn * clrptn
  }

  /** No pattern that tasks wait for is satisfied by nothing. */
  lemma NothingSatisfies(w: FlgWait)
    requires w.waiptn != NO_BITS
    ensures !Satisfied(NO_BITS, w)
  {
  }

  /** Clearing bits satisfies no condition. */
  lemma ClearingSatisfiesNone(ptn: FlgPtn, clrptn: FlgPtn, w: FlgWait)
    requires Satisfied(KeepBits(ptn, clrptn), w)
    ensures Satisfied(ptn, w)
  {
    assert !w.OrMode() ==> (ptn * clrptn) * w.waiptn == w.waiptn ==> ptn * w.waiptn == w.waiptn;
  }

  ghost predicate FlgOk(x: FlgState, c: FlgConfig) {
    && Inv(x.s) && c.q in x.s.cfg.queues && c.q in x.s.queue && c.q.Wait? && x.s.cfg.time.Ok()
    && S.AllTasks(x.s.queue[c.q], |x.s.tcb|)
    && (forall t :: t in x.s.queue[c.q] ==> t in x.wait && x.wait[t].Good() && !Satisfied(x.flgptn, x.wait[t]))
    && (!c.wmul ==> |x.s.queue[c.q]| <= 1)
  }

  /** The tasks of a queue that the pattern wakes up, in order: all whose conditions it
      satisfies, or only the first of them if that clears the pattern. */
  function Woken(queue: seq<TaskId>, ptn: FlgPtn, wait: map<TaskId, FlgWait>, clr: bool): seq<TaskId>
    requires forall t :: t in queue ==> t in wait
  {
    if queue == [] then []
    else if Satisfied(ptn, wait[queue[0]]) then
      [queue[0]] + (if clr then [] else Woken(queue[1..], ptn, wait, clr))
    else Woken(queue[1..], ptn, wait, clr)
  }

  lemma {:induction false} WokenExactly(queue: seq<TaskId>, ptn: FlgPtn, wait: map<TaskId, FlgWait>, clr: bool)
    requires (forall t :: t in queue ==> t in wait) && NoDup(queue)
    ensures var ws := Woken(queue, ptn, wait, clr);
      && NoDup(ws) && (forall t :: t in ws ==> t in queue && Satisfied(ptn, wait[t]))
      && (!clr ==> forall t :: t in queue && Satisfied(ptn, wait[t]) ==> t in ws)
      && (clr ==> |ws| <= 1)
      && (clr && ws == [] ==> forall t :: t in queue ==> !Satisfied(ptn, wait[t]))
      && (clr && ws != [] ==> forall i, j :: 0 <= i < j < |queue| && queue[j] == ws[0] ==> !Satisfied(ptn, wait[queue[i]]))
  {
    hide Satisfied;
    if queue != [] {
      assert forall t :: t in queue[1..] ==> t in queue && t != queue[0];
      assert forall i, j :: 0 <= i < j < |queue[1..]| ==> queue[1..][i] != queue[1..][j];
      WokenExactly(queue[1..], ptn, wait, clr);
      var ws := Woken(queue[1..], ptn, wait, clr);
      if clr && ws != [] && !Satisfied(ptn, wait[queue[0]]) {
        forall i, j | 0 <= i < j < |queue| && queue[j] == ws[0]
          ensures !Satisfied(ptn, wait[queue[i]])
        {
          assert i > 0 ==> queue[i] == queue[1..][i - 1] && queue[j] == queue[1..][j - 1];
        }
      }
      assert forall t :: t in queue <==> t == queue[0] || t in queue[1..];
    }
  }

  /** The tasks `ts` see the pattern `ptn`. */
  function Report(seen: map<TaskId, FlgPtn>, ts: seq<TaskId>, ptn: FlgPtn): (r: map<TaskId, FlgPtn>)
    ensures forall t :: t in ts ==> t in r && r[t] == ptn
    ensures forall t :: t in seen && t !in ts ==> t in r && r[t] == seen[t]
  {
    map t | t in seen.Keys + (set t | t in ts) :: if t in ts then ptn else seen[t]
  }

  /** The end of several waits: from a task, followed by a dispatch. */
  function WakeUp(s: State, ts: seq<TaskId>, fromInt: bool): State
    requires S.AllTasks(ts, |s.tcb|)
  {
    if fromInt then EndEach(s, ts, true) else S.Dispatch(EndEach(s, ts, false))
  }

  /** set_flg, and iset_flg if `fromInt`. */
  ghost function SetStep(x: FlgState, c: FlgConfig, setptn: FlgPtn, fromInt: bool): FlgResult
    requires FlgOk(x, c)
  {
    if !InContext(x.s, fromInt) then FlgResult(x, S.Returns(E_CTX), NO_BITS)
    else
      var ptn := SetBits(x.flgptn, setptn);
      var ws := Woken(x.s.queue[c.q], ptn, x.wait, c.clr);
      FlgWoken(x, c, ptn);
      FlgResult(
        FlgState(WakeUp(x.s, ws, fromInt), if c.clr && ws != [] then NO_BITS else ptn, x.wait, Report(x.seen, ws, ptn)),
        S.Returns(E_OK), NO_BITS)
  }

  lemma FlgWoken(x: FlgState, c: FlgConfig, ptn: FlgPtn)
    requires FlgOk(x, c)
    ensures var ws := Woken(x.s.queue[c.q], ptn, x.wait, c.clr);
      S.AllTasks(ws, |x.s.tcb|) && NoDup(ws) && forall t :: t in ws ==> t in x.s.queue[c.q]
  {
    hide Inv, SetBits, KeepBits, Satisfied;
    ObjectQueue(x.s, c.q);
    WokenExactly(x.s.queue[c.q], ptn, x.wait, c.clr);
    var ws := Woken(x.s.queue[c.q], ptn, x.wait, c.clr);
    forall i | 0 <= i < |ws|
      ensures ws[i] < |x.s.tcb|
    {
      assert ws[i] in ws;
    }
  }

  /** clr_flg. */
  ghost function ClearStep(x: FlgState, c: FlgConfig, clrptn: FlgPtn): FlgResult
    requires FlgOk(x, c)
  {
    if !S.InTask(x.s) then FlgResult(x, S.Returns(E_CTX), NO_BITS)
    else FlgResult(x.(flgptn := KeepBits(x.flgptn, clrptn)), S.Returns(E_OK), NO_BITS)
  }

  /** twai_flg, and wai_flg if `tmout` is TMO_FEVR. */
  ghost function WaitStep(x: FlgState, c: FlgConfig, w: FlgWait, tmout: int): FlgResult
    requires FlgOk(x, c)
  {
    if !S.MayWait(x.s) then FlgResult(x, S.Returns(E_CTX), NO_BITS)
    else if !w.Good() || tmout < S.TMO_FEVR then FlgResult(x, S.Returns(E_PAR), NO_BITS)
    else if !c.wmul && x.s.queue[c.q] != [] then FlgResult(x, S.Returns(E_ILUSE), NO_BITS)
    else if Satisfied(x.flgptn, w) then
      FlgResult(x.(flgptn := if c.clr then NO_BITS else x.flgptn), S.Returns(E_OK), x.flgptn)
    else if tmout == S.TMO_POL then FlgResult(x, S.Returns(E_TMOUT), NO_BITS)
    else
      FlgResult(x.(s := S.WaitOn(x.s, c.q, tmout).s, wait := x.wait[x.s.runtsk.value := w]), S.Blocks, NO_BITS)
  }

  /** pol_flg. */
  ghost function PollStep(x: FlgState, c: FlgConfig, w: FlgWait): FlgResult
    requires FlgOk(x, c)
  {
    if !S.InTask(x.s) then FlgResult(x, S.Returns(E_CTX), NO_BITS)
    else if !w.Good() then FlgResult(x, S.Returns(E_PAR), NO_BITS)
    else if !c.wmul && x.s.queue[c.q] != [] then FlgResult(x, S.Returns(E_ILUSE), NO_BITS)
    else if Satisfied(x.flgptn, w) then
      FlgResult(x.(flgptn := if c.clr then NO_BITS else x.flgptn), S.Returns(E_OK), x.flgptn)
    else FlgResult(x, S.Returns(E_TMOUT), NO_BITS)
  }

  /** ini_flg. */
  ghost function ResetStep(x: FlgState, c: FlgConfig): FlgResult
    requires FlgOk(x, c)
  {
    if !S.InTask(x.s) then FlgResult(x, S.Returns(E_CTX), NO_BITS)
    else FlgResult(x.(s := S.EndWaits(x.s, x.s.queue[c.q], E_DLT), flgptn := c.iflgptn), S.Returns(E_OK), NO_BITS)
  }

  // ----- runs -----

  datatype FlgOp = Other(op: Op) | SetFlg(setptn: FlgPtn, fromInt: bool) | ClrFlg(clrptn: FlgPtn)
    | TwaiFlg(w: FlgWait, tmout: int) | PolFlg(w: FlgWait) | IniFlg

  ghost predicate FlgEnabled(x: FlgState, c: FlgConfig, op: FlgOp)
    requires FlgOk(x, c)
  {
    match op
    case Other(op) => Enabled(x.s, op) && Foreign(x.s, op, c.q)
    case TwaiFlg(_, tmout) => tmout <= x.s.cfg.time.tmax
    case _ => true
  }

  ghost function FlgDo(x: FlgState, c: FlgConfig, op: FlgOp): FlgState
    requires FlgOk(x, c) && FlgEnabled(x, c, op)
  {
    match op
    case Other(op) => FlgShape(x, c); x.(s := Do(x.s, op))
    case SetFlg(setptn, fromInt) => SetStep(x, c, setptn, fromInt).x
    case ClrFlg(clrptn) => ClearStep(x, c, clrptn).x
    case TwaiFlg(w, tmout) => WaitStep(x, c, w, tmout).x
    case PolFlg(w) => PollStep(x, c, w).x
    case IniFlg => ResetStep(x, c).x
  }

  lemma FlgShape(x: FlgState, c: FlgConfig)
    requires FlgOk(x, c)
    ensures ShapeOk(x.s)
  {
    hide DispatchOk, QueuesOk, TimersOk, Sorted, ClockOk, Satisfied;
  }

  lemma FlgQueue(x: FlgState, c: FlgConfig)
    requires FlgOk(x, c)
    ensures Inv(x.s) && c.q in x.s.cfg.queues && c.q in x.s.queue && c.q.Wait? && x.s.cfg.time.Ok()
  {
    hide Inv, Satisfied;
  }

  lemma TwoMembers(a: seq<TaskId>)
    requires NoDup(a) && |a| > 1
    ensures a[0] in a && a[1] in a && a[0] != a[1]
  {
  }

  /** Who is left in a duplicate-free queue is no more than who was there. */
  lemma FewerWait(a: seq<TaskId>, b: seq<TaskId>)
    requires NoDup(a) && (forall t :: t in a ==> t in b) && |b| <= 1
    ensures |a| <= 1
  {
    if |a| > 1 {
      TwoMembers(a);
    }
  }

  /** After set_flg, the tasks whose conditions the new pattern satisfied have been woken up
      with that pattern (only the first of them if it is cleared), the others wait on. */
  lemma SetWakes(x: FlgState, c: FlgConfig, setptn: FlgPtn, fromInt: bool)
    requires FlgOk(x, c) && InContext(x.s, fromInt)
    ensures var y := SetStep(x, c, setptn, fromInt).x;
      var ptn := SetBits(x.flgptn, setptn);
      var ws := Woken(x.s.queue[c.q], ptn, x.wait, c.clr);
      && Inv(y.s) && y.s.cfg == x.s.cfg && c.q in y.s.queue && |y.s.tcb| == |x.s.tcb|
      && (forall t :: t in y.s.queue[c.q] <==> t in x.s.queue[c.q] && t !in ws)
      && (forall t :: t in x.s.queue[c.q] ==> t < |x.s.tcb| && (t in ws <==> y.s.tcb[t].winfo == Wercd(E_OK)))
      && y.seen == Report(x.seen, ws, ptn)
  {
    hide Inv, SetBits, KeepBits, Satisfied, WakeUp, Woken, Report;
    var ptn := SetBits(x.flgptn, setptn);
    FlgWoken(x, c, ptn);
    WakeUpFacts(x.s, c.q, Woken(x.s.queue[c.q], ptn, x.wait, c.clr), fromInt);
  }

  lemma SetKeeps(x: FlgState, c: FlgConfig, setptn: FlgPtn, fromInt: bool)
    requires FlgOk(x, c) && InContext(x.s, fromInt)
    ensures FlgOk(SetStep(x, c, setptn, fromInt).x, c)
  {
    hide Inv, SetBits, KeepBits, Satisfied, WakeUp, Woken, Report;
    var ptn := SetBits(x.flgptn, setptn);
    var queue := x.s.queue[c.q];
    var ws := Woken(queue, ptn, x.wait, c.clr);
    var y := SetStep(x, c, setptn, fromInt).x;
    SetWakes(x, c, setptn, fromInt);
    ObjectQueue(x.s, c.q);
    WokenExactly(queue, ptn, x.wait, c.clr);
    ObjectQueue(y.s, c.q);
    if !c.wmul {
      FewerWait(y.s.queue[c.q], queue);
    }
    forall t | t in y.s.queue[c.q]
      ensures !Satisfied(y.flgptn, x.wait[t])
    {
      if c.clr && ws != [] {
        NothingSatisfies(x.wait[t]);
      }
    }
  }

  /** Waking up is a step of the kernel that serves exactly `ts`. */
  lemma WakeUpFacts(s: State, q: QName, ts: seq<TaskId>, fromInt: bool)
    requires Inv(s) && InContext(s, fromInt) && q in s.cfg.queues && q in s.queue && NoDup(ts) && S.AllTasks(ts, |s.tcb|)
    requires forall t :: t in ts ==> t in s.queue[q]
    ensures var s' := WakeUp(s, ts, fromInt);
      && Inv(s') && s'.cfg == s.cfg && q in s'.queue && |s'.tcb| == |s.tcb|
      && (forall t :: t in s'.queue[q] <==> t in s.queue[q] && t !in ts)
      && (forall t :: t in s.queue[q] ==> t < |s.tcb| && (t in ts <==> s'.tcb[t].winfo == Wercd(E_OK)))
  {
    hide CoreOk, DispatchOk, EndEach, Sched;
    ObjectQueue(s, q);
    WakeUpKeeps(s, q, ts, fromInt);
    EndEachFacts(s, q, ts, fromInt);
  }

  lemma WakeUpKeeps(s: State, q: QName, ts: seq<TaskId>, fromInt: bool)
    requires Inv(s) && InContext(s, fromInt) && q in s.cfg.queues && q in s.queue && NoDup(ts) && S.AllTasks(ts, |s.tcb|)
    requires forall t :: t in ts ==> t in s.queue[q]
    ensures Inv(WakeUp(s, ts, fromInt))
  {
    hide CoreOk, DispatchOk, S.ReleaseAll, S.IEndWaits, Sched;
    ObjectQueue(s, q);
    forall i | 0 <= i < |ts|
      ensures ts[i] < |s.tcb| && s.tcb[ts[i]].tstat.waiting
    {
      assert ts[i] in ts;
    }
    if fromInt {
      IEndWaitsKeeps(s, ts);
    } else {
      EndWaitsKeeps(s, ts, E_OK);
    }
  }

  /** Every step keeps unsatisfied conditions unsatisfied while tasks wait for them. */
  lemma FlgStepKeeps(x: FlgState, c: FlgConfig, op: FlgOp)
    requires FlgOk(x, c) && FlgEnabled(x, c, op)
    ensures FlgOk(FlgDo(x, c, op), c)
  {
    hide FlgOk, Inv, ShapeOk, Enabled, Do, Foreign, SetStep, ClearStep, WaitStep, PollStep, ResetStep;
    match op
    case Other(op) => OtherKeeps(x, c, op);
    case SetFlg(setptn, fromInt) =>
      if InContext(x.s, fromInt) {
        SetKeeps(x, c, setptn, fromInt);
      } else {
        SetFails(x, c, setptn, fromInt);
      }
    case ClrFlg(clrptn) => ClearKeeps(x, c, clrptn);
    case TwaiFlg(w, tmout) => WaitKeeps(x, c, w, tmout);
    case PolFlg(w) => PollKeeps(x, c, w);
    case IniFlg => ResetKeeps(x, c);
  }

  lemma OtherKeeps(x: FlgState, c: FlgConfig, op: Op)
    requires FlgOk(x, c) && Enabled(x.s, op) && Foreign(x.s, op, c.q)
    ensures ShapeOk(x.s) && FlgOk(x.(s := Do(x.s, op)), c)
  {
    hide Inv, ShapeOk, Enabled, Do, Foreign, Satisfied;
    FlgShape(x, c);
    var s' := Do(x.s, op);
    ObjectQueue(x.s, c.q);
    ForeignLeaves(x.s, op, c.q);
    ObjectQueue(s', c.q);
    if !c.wmul {
      FewerWait(s'.queue[c.q], x.s.queue[c.q]);
    }
  }

  lemma ClearKeeps(x: FlgState, c: FlgConfig, clrptn: FlgPtn)
    requires FlgOk(x, c)
    ensures FlgOk(ClearStep(x, c, clrptn).x, c)
  {
    hide Inv, SetBits, KeepBits, Satisfied;
    forall t | t in x.s.queue[c.q]
      ensures !Satisfied(KeepBits(x.flgptn, clrptn), x.wait[t])
    {
      if Satisfied(KeepBits(x.flgptn, clrptn), x.wait[t]) {
        ClearingSatisfiesNone(x.flgptn, clrptn, x.wait[t]);
      }
    }
  }

  lemma PollKeeps(x: FlgState, c: FlgConfig, w: FlgWait)
    requires FlgOk(x, c)
    ensures FlgOk(PollStep(x, c, w).x, c)
  {
    hide Inv, SetBits, KeepBits, Satisfied;
    ClearedOk(x, c);
  }

  lemma SetFails(x: FlgState, c: FlgConfig, setptn: FlgPtn, fromInt: bool)
    requires FlgOk(x, c) && !InContext(x.s, fromInt)
    ensures SetStep(x, c, setptn, fromInt).x == x
  {
  }

  lemma ClearedOk(x: FlgState, c: FlgConfig)
    requires FlgOk(x, c)
    ensures FlgOk(x.(flgptn := NO_BITS), c)
  {
    hide Inv, SetBits, KeepBits, Satisfied;
    forall t | t in x.s.queue[c.q]
      ensures !Satisfied(NO_BITS, x.wait[t])
    {
      NothingSatisfies(x.wait[t]);
    }
  }

  lemma WaitKeeps(x: FlgState, c: FlgConfig, w: FlgWait, tmout: int)
    requires FlgOk(x, c) && tmout <= x.s.cfg.time.tmax
    ensures FlgOk(WaitStep(x, c, w, tmout).x, c)
  {
    hide Inv, S.WaitOn, Satisfied;
    ClearedOk(x, c);
    if S.MayWait(x.s) && tmout >= S.TMO_FEVR && tmout != S.TMO_POL {
      JoinFacts(x.s, c.q, tmout);
      var s' := S.WaitOn(x.s, c.q, tmout).s;
      ObjectQueue(s', c.q);
      if x.s.queue[c.q] == [] {
        OneWaits(s'.queue[c.q], x.s.runtsk.value);
      }
    }
  }

  lemma OneWaits(a: seq<TaskId>, t: TaskId)
    requires NoDup(a) && forall x :: x in a ==> x == t
    ensures |a| <= 1
  {
    if |a| > 1 {
      TwoMembers(a);
    }
  }

  lemma ResetKeeps(x: FlgState, c: FlgConfig)
    requires FlgOk(x, c)
    ensures FlgOk(ResetStep(x, c).x, c)
  {
    hide CoreOk, DispatchOk, S.ReleaseAll, Sched, Satisfied;
    if S.InTask(x.s) {
      ObjectQueue(x.s, c.q);
      EndWaitsKeeps(x.s, x.s.queue[c.q], E_DLT);
      FlushFacts(x.s, c.q, E_DLT);
      ObjectQueue(ResetStep(x, c).x.s, c.q);
    }
  }

  ghost predicate FlgRun(x: FlgState, c: FlgConfig, ops: seq<FlgOp>, y: FlgState)
    decreases |ops|
  {
    if ops == [] then x == y
    else FlgOk(x, c) && FlgEnabled(x, c, ops[0]) && FlgRun(FlgDo(x, c, ops[0]), c, ops[1..], y)
  }

  /** In every state of every run, no task waits for what is there already, and without
      TA_WMUL at most one task waits. */
  lemma {:induction false} NobodyWaitsInVain(x: FlgState, c: FlgConfig, ops: seq<FlgOp>, y: FlgState)
    requires FlgOk(x, c) && FlgRun(x, c, ops, y)
    ensures FlgOk(y, c)
    decreases |ops|
  {
    hide FlgOk, FlgEnabled, FlgDo;
    if ops != [] {
      FlgStepKeeps(x, c, ops[0]);
      NobodyWaitsInVain(FlgDo(x, c, ops[0]), c, ops[1..], y);
    }
  }

  // ----- the variables -----

  /** FLGCB, with the WINFO_FLG of the tasks. */
  class EventFlag {
    const k: Kernel
    const c: FlgConfig
    var flgptn: FlgPtn
    var wait: map<TaskId, FlgWait>
    var seen: map<TaskId, FlgPtn>

    ghost predicate Valid()
      reads this, k, k.tm, k.tm.heap
    {
      k.Rep() && FlgOk(Value(), c)
    }

    ghost function Value(): FlgState
      reads this, k, k.tm
    {
      FlgState(k.View(), flgptn, wait, seen)
    }

    /** initialize_eventflag, for one event flag. */
    constructor (k: Kernel, c: FlgConfig)
      requires k.Rep() && FlgOk(FlgState(k.View(), c.iflgptn, map[], map[]), c)
      ensures this.k == k && this.c == c && Valid() && Value() == FlgState(k.View(), c.iflgptn, map[], map[])
    {
      this.k := k;
      this.c := c;
      hide Kernel.Rep, FlgOk;
      flgptn := c.iflgptn;
      wait := map[];
      seen := map[];
    }

    /** check_flg_cond. */
    method CheckFlgCond(w: FlgWait) returns (ok: bool, ptn: FlgPtn)
      modifies `flgptn
      ensures w.wfmode == TWF_ORW ==> (ok <==> exists b :: b in w.waiptn && b in old(flgptn))
      ensures w.wfmode == TWF_ANDW ==> (ok <==> forall b :: b in w.waiptn ==> b in old(flgptn))
      ensures ok <==> Satisfied(old(flgptn), w)
      ensures ptn == if ok then old(flgptn) else NO_BITS
      ensures flgptn == if ok && c.clr then NO_BITS else old(flgptn)
    {
      OnBits(flgptn, w);
      ok, ptn := false, NO_BITS;
      if if w.OrMode() then flgptn * w.waiptn != NO_BITS else flgptn * w.waiptn == w.waiptn {
        ptn := flgptn;
        if c.clr {
          flgptn := NO_BITS;
        }
        ok := true;
      }
    }

    /** One turn of the loop: if the condition of the first task holds, its wait ends and it
        sees the pattern. */
    method WakeTurn(rest: seq<TaskId>, fromInt: bool, dspreq: bool, ghost goal: State, ghost best: Option<TaskId>) returns (hit: bool, req: bool)
      requires k.Rep() && rest != [] && rest[0] in wait && LoopOk(k.View(), c, rest, flgptn, wait, fromInt, goal)
      requires (dspreq ==> k.dspflg) && (k.dspflg && !dspreq ==> k.schedtsk == best)
      modifies `flgptn, `seen, k`tcb, k`queue, k`readyPrimap, k`schedtsk, k`reqflg
      modifies k.tm.heap, k.tm`blocks, k.tm`times, k.tm`lastIndex, k.tm`pending
      ensures k.Rep() && (hit <==> Satisfied(old(flgptn), wait[rest[0]]))
      ensures seen == if hit then old(seen)[rest[0] := old(flgptn)] else old(seen)
      ensures flgptn == if hit && c.clr then NO_BITS else old(flgptn)
      ensures if hit && c.clr then k.View() == goal else LoopOk(k.View(), c, rest[1..], flgptn, wait, fromInt, goal)
      ensures (req ==> k.dspflg) && (k.dspflg && !req ==> k.schedtsk == best)
    {
      hide CoreOk, Kernel.Rep, EndEach, EndOne, Satisfied, Woken, LoopOk, S.AllTasks;
      LoopParts(k.View(), c, rest, flgptn, wait, fromInt, goal);
      LoopTurn(k.View(), c, rest, flgptn, wait, fromInt, goal);
      var p: FlgPtn;
      hit, p := CheckFlgCond(wait[rest[0]]);
      req := dspreq;
      if hit {
        seen := seen[rest[0] := p];
        var d := CompleteEach(k, c.q, rest[0], fromInt);
        if d {
          req := true;
        }
      }
    }

    /** The loop of set_flg and iset_flg, over the wait queue as it was before. */
    method WakeLoop(fromInt: bool) returns (dspreq: bool)
      requires k.Rep() && CoreOk(k.View()) && c.q in k.cfg.queues && c.q in k.queue
      requires forall t :: t in k.queue[c.q] ==> t in wait
      modifies `flgptn, `seen, k`tcb, k`queue, k`readyPrimap, k`schedtsk, k`reqflg
      modifies k.tm.heap, k.tm`blocks, k.tm`times, k.tm`lastIndex, k.tm`pending
      ensures k.Rep()
      ensures var ws := Woken(old(k.queue)[c.q], old(flgptn), wait, c.clr);
        && S.AllTasks(ws, |old(k.tcb)|)
        && k.View() == EndEach(old(k.View()), ws, fromInt)
        && flgptn == (if c.clr && ws != [] then NO_BITS else old(flgptn))
        && seen == Report(old(seen), ws, old(flgptn))
      ensures dspreq ==> k.dspflg
      ensures k.dspflg && !dspreq ==> k.schedtsk == old(k.schedtsk)
    {
      hide CoreOk, Kernel.Rep, EndEach, Satisfied, Woken, Report, LoopOk, S.AllTasks;
      ghost var ptn := flgptn;
      ghost var ws := Woken(k.queue[c.q], ptn, wait, c.clr);
      ghost var done: seq<TaskId> := [];
      LoopStart(k.View(), c, ptn, wait, fromInt, seen);
      ghost var goal := EndEach(k.View(), ws, fromInt);
      dspreq := false;
      var rest := k.queue[c.q];
      while rest != []
        invariant k.Rep() && LoopOk(k.View(), c, rest, ptn, wait, fromInt, goal)
        invariant forall t :: t in rest ==> t in wait
        invariant ws == done + Woken(rest, ptn, wait, c.clr)
        invariant seen == Report(old(seen), done, ptn) && flgptn == ptn
        invariant c.clr ==> done == []
        invariant (dspreq ==> k.dspflg) && (k.dspflg && !dspreq ==> k.schedtsk == old(k.schedtsk))
        decreases |rest|
      {
        WokenHead(rest, ptn, wait, c.clr);
        ReportMore(old(seen), done, rest[0], ptn);
        var hit: bool;
        hit, dspreq := WakeTurn(rest, fromInt, dspreq, goal, old(k.schedtsk));
        if hit {
          done := done + [rest[0]];
          if c.clr {
            assert ws == done;
            return;
          }
        }
        rest := rest[1..];
      }
      LoopEnd(k.View(), c, rest, ptn, wait, fromInt, goal);
      assert ws == done;
    }

    /** What set_flg and iset_flg do when the bits are set. */
    method WakeAll(fromInt: bool)
      requires k.Rep() && Inv(k.View()) && c.q in k.cfg.queues && c.q in k.queue && InContext(k.View(), fromInt)
      requires forall t :: t in k.queue[c.q] ==> t in wait
      modifies `flgptn, `seen, k`tcb, k`queue, k`readyPrimap, k`schedtsk, k`runtsk, k`reqflg
      modifies k.tm.heap, k.tm`blocks, k.tm`times, k.tm`lastIndex, k.tm`pending
      ensures k.Rep()
      ensures var ws := Woken(old(k.queue)[c.q], old(flgptn), wait, c.clr);
        && S.AllTasks(ws, |old(k.tcb)|)
        && k.View() == WakeUp(old(k.View()), ws, fromInt)
        && flgptn == (if c.clr && ws != [] then NO_BITS else old(flgptn))
        && seen == Report(old(seen), ws, old(flgptn))
    {
      hide Kernel.Timing, Mirrors, HasReady, CoreOk, DispatchOk, Sched, EndEach, Satisfied, Woken, Report;
      ghost var s := k.View();
      ObjectQueue(s, c.q);
      WakeFrame(s, s.queue[c.q], flgptn, wait, c.clr, fromInt);
      if !fromInt {
        BestRuns(s);
      }
      var dspreq := WakeLoop(fromInt);
      if !fromInt && dspreq {
        DispatchNow(k);
      }
    }

    /** set_flg, and iset_flg if `fromInt`. */
    method SetFlg(setptn: FlgPtn, fromInt: bool) returns (ercd: Ercd)
      requires Valid()
      modifies `flgptn, `seen, k`tcb, k`queue, k`readyPrimap, k`schedtsk, k`runtsk, k`reqflg
      modifies k.tm.heap, k.tm`blocks, k.tm`times, k.tm`lastIndex, k.tm`pending
      ensures Valid()
      ensures FlgResult(Value(), S.Returns(ercd), NO_BITS) == SetStep(old(Value()), c, setptn, fromInt)
    {
      hide Kernel.Rep, Inv, WakeUp, SetBits, KeepBits, Satisfied, Woken, Report;
      ghost var x := Value();
      FlgStepKeeps(x, c, FlgOp.SetFlg(setptn, fromInt));
      ObjectQueue(x.s, c.q);
      var ok := CheckContext(k, fromInt);
      if !ok {
        return E_CTX;
      }
      flgptn := SetBits(flgptn, setptn);
      WakeAll(fromInt);
      return E_OK;
    }

    /** clr_flg. */
    method ClrFlg(clrptn: FlgPtn) returns (ercd: Ercd)
      requires Valid()
      modifies `flgptn
      ensures Valid()
      ensures FlgResult(Value(), S.Returns(ercd), NO_BITS) == ClearStep(old(Value()), c, clrptn)
    {
      hide Kernel.Rep, Inv, SetBits, KeepBits, Satisfied;
      FlgStepKeeps(Value(), c, FlgOp.ClrFlg(clrptn));
      var ok := CheckContext(k, false);
      if !ok {
        return E_CTX;
      }
      flgptn := KeepBits(flgptn, clrptn);
      return E_OK;
    }

    /** The running task waits. */
    method WaitForFlag(w: FlgWait, tmout: int)
      requires k.Rep() && Inv(k.View()) && c.q in k.cfg.queues && S.MayWait(k.View()) && (tmout == S.TMO_FEVR || 0 < tmout <= k.cfg.time.tmax)
      modifies `wait, k`tcb, k`queue, k`readyPrimap, k`schedtsk, k`runtsk
      modifies k.tm.heap, k.tm`blocks, k.tm`times, k.tm`lastIndex, k.tm`pending
      ensures k.Rep() && S.InTask(old(k.View())) && k.cfg.time.Ok() && c.q.Wait?
      ensures Value() == old(Value()).(s := S.WaitOn(old(k.View()), c.q, tmout).s, wait := old(wait)[old(k.runtsk).value := w])
    {
      hide Kernel.Rep, Inv, S.WaitOn;
      wait := wait[k.runtsk.value := w];
      WaitNow(k, c.q, tmout);
    }

    /** The locked part of twai_flg, when nobody else is in the way. */
    method TestOrWait(w: FlgWait, tmout: int) returns (out: S.Outcome, ptn: FlgPtn)
      requires Valid() && S.MayWait(k.View()) && S.TMO_FEVR <= tmout <= k.cfg.time.tmax && w.Good()
      requires !c.wmul ==> k.queue[c.q] == []
      modifies `flgptn, `wait, k`tcb, k`queue, k`readyPrimap, k`schedtsk, k`runtsk
      modifies k.tm.heap, k.tm`blocks, k.tm`times, k.tm`lastIndex, k.tm`pending
      ensures k.Rep() && FlgResult(Value(), out, ptn) == WaitStep(old(Value()), c, w, tmout)
    {
      hide Kernel.Rep, Inv, FlgOk, SetBits, KeepBits, Satisfied, S.WaitOn;
      FlgQueue(Value(), c);
      var holds: bool;
      holds, ptn := CheckFlgCond(w);
      if holds {
        return S.Returns(E_OK), ptn;
      }
      if tmout == S.TMO_POL {
        return S.Returns(E_TMOUT), NO_BITS;
      }
      WaitForFlag(w, tmout);
      return S.Blocks, NO_BITS;
    }

    /** twai_flg, and wai_flg if `tmout` is TMO_FEVR, up to the dispatch. */
    method TwaiFlg(w: FlgWait, tmout: int) returns (out: S.Outcome, ptn: FlgPtn)
      requires Valid() && tmout <= k.cfg.time.tmax
      modifies `flgptn, `wait, k`tcb, k`queue, k`readyPrimap, k`schedtsk, k`runtsk
      modifies k.tm.heap, k.tm`blocks, k.tm`times, k.tm`lastIndex, k.tm`pending
      ensures Valid()
      ensures FlgResult(Value(), out, ptn) == WaitStep(old(Value()), c, w, tmout)
    {
      hide Kernel.Rep, Inv, FlgOk, SetBits, KeepBits, Satisfied, S.WaitOn;
      ghost var x := Value();
      FlgQueue(x, c);
      FlgStepKeeps(x, c, FlgOp.TwaiFlg(w, tmout));
      var ok := CheckDispatch(k);
      if !ok {
        return S.Returns(E_CTX), NO_BITS;
      }
      if !w.Good() || tmout < S.TMO_FEVR {
        return S.Returns(E_PAR), NO_BITS;
      }
      if !c.wmul && k.queue[c.q] != [] {
        return S.Returns(E_ILUSE), NO_BITS;
      }
      out, ptn := TestOrWait(w, tmout);
    }

    /** pol_flg. */
    method PolFlg(w: FlgWait) returns (ercd: Ercd, ptn: FlgPtn)
      requires Valid()
      modifies `flgptn
      ensures Valid()
      ensures FlgResult(Value(), S.Returns(ercd), ptn) == PollStep(old(Value()), c, w)
    {
      hide Kernel.Rep, Inv, FlgOk, SetBits, KeepBits, Satisfied;
      FlgQueue(Value(), c);
      FlgStepKeeps(Value(), c, FlgOp.PolFlg(w));
      var ok := CheckContext(k, false);
      if !ok {
        return E_CTX, NO_BITS;
      }
      if !w.Good() {
        return E_PAR, NO_BITS;
      }
      if !c.wmul && k.queue[c.q] != [] {
        return E_ILUSE, NO_BITS;
      }
      var holds: bool;
      holds, ptn := CheckFlgCond(w);
      ercd := if holds then E_OK else E_TMOUT;
    }

    /** ini_flg. */
    method IniFlg() returns (ercd: Ercd)
      requires Valid()
      modifies `flgptn, k`tcb, k`queue, k`readyPrimap, k`schedtsk, k`runtsk
      modifies k.tm.heap, k.tm`blocks, k.tm`times, k.tm`lastIndex, k.tm`pending
      ensures Valid()
      ensures FlgResult(Value(), S.Returns(ercd), NO_BITS) == ResetStep(old(Value()), c)
    {
      hide Kernel.Rep, Inv, SetBits, KeepBits, Satisfied, S.EndWaits;
      FlgStepKeeps(Value(), c, FlgOp.IniFlg);
      var ok := CheckContext(k, false);
      if !ok {
        return E_CTX;
      }
      DeleteAll(k, c.q);
      flgptn := c.iflgptn;
      return E_OK;
    }
  }

  /** Ending waits leaves the running task and the flags alone. */
  lemma WakeFrame(s: State, queue: seq<TaskId>, ptn: FlgPtn, wait: map<TaskId, FlgWait>, clr: bool, fromInt: bool)
    requires CoreOk(s)
    requires forall t :: t in queue ==> t in wait
    ensures var ws := Woken(queue, ptn, wait, clr);
      S.AllTasks(ws, |s.tcb|) && !fromInt ==>
        var s' := EndEach(s, ws, fromInt); s'.runtsk == s.runtsk && s'.dspflg == s.dspflg
  {
    hide CoreOk, Woken, S.Release;
    var ws := Woken(queue, ptn, wait, clr);
    if S.AllTasks(ws, |s.tcb|) && !fromInt {
      ReleaseAllFrame(s, ws, E_OK);
    }
  }

  lemma {:induction false} ReleaseAllFrame(s: State, ts: seq<TaskId>, ercd: Ercd)
    requires S.AllTasks(ts, |s.tcb|)
    ensures var s' := S.ReleaseAll(s, ts, ercd); s'.runtsk == s.runtsk && s'.dspflg == s.dspflg
    decreases |ts|
  {
    hide S.Enter, S.Leave;
    if ts != [] {
      ReleaseFrame(s, ts[0], ercd);
      ReleaseAllFrame(S.Release(s, ts[0], ercd), ts[1..], ercd);
    }
  }

  // ----- the loop of set_flg, on values -----

  /** Of the tasks seen by the loop, `rest` remain; waking up those of them that are to be
      woken up leads to `goal`. */
  ghost predicate LoopOk(s: State, c: FlgConfig, rest: seq<TaskId>, ptn: FlgPtn, wait: map<TaskId, FlgWait>, fromInt: bool, goal: State) {
    && CoreOk(s) && c.q in s.cfg.queues && c.q in s.queue && NoDup(rest)
    && (forall t :: t in rest ==> t in s.queue[c.q] && t in wait)
    && S.AllTasks(Woken(rest, ptn, wait, c.clr), |s.tcb|)
    && EndEach(s, Woken(rest, ptn, wait, c.clr), fromInt) == goal
  }

  lemma LoopStart(s: State, c: FlgConfig, ptn: FlgPtn, wait: map<TaskId, FlgWait>, fromInt: bool, seen: map<TaskId, FlgPtn>)
    requires CoreOk(s) && c.q in s.cfg.queues && c.q in s.queue
    requires forall t :: t in s.queue[c.q] ==> t in wait
    ensures var ws := Woken(s.queue[c.q], ptn, wait, c.clr);
      && S.AllTasks(ws, |s.tcb|)
      && LoopOk(s, c, s.queue[c.q], ptn, wait, fromInt, EndEach(s, ws, fromInt))
    ensures Report(seen, [], ptn) == seen
  {
    hide CoreOk, EndEach, Satisfied;
    QueueTasks(s, c.q);
    WokenExactly(s.queue[c.q], ptn, wait, c.clr);
    var ws := Woken(s.queue[c.q], ptn, wait, c.clr);
    forall i | 0 <= i < |ws|
      ensures ws[i] < |s.tcb|
    {
      assert ws[i] in ws;
      var t := ws[i];
      assert t in s.queue[c.q];
    }
  }

  lemma LoopParts(s: State, c: FlgConfig, rest: seq<TaskId>, ptn: FlgPtn, wait: map<TaskId, FlgWait>, fromInt: bool, goal: State)
    requires LoopOk(s, c, rest, ptn, wait, fromInt, goal)
    ensures CoreOk(s)
  {
    hide CoreOk;
  }

  /** Whether the first task is woken up, and whom else. */
  lemma WokenHead(rest: seq<TaskId>, ptn: FlgPtn, wait: map<TaskId, FlgWait>, clr: bool)
    requires rest != [] && forall t :: t in rest ==> t in wait
    ensures rest[0] in wait && forall t :: t in rest[1..] ==> t in wait
    ensures Woken(rest, ptn, wait, clr) ==
      if Satisfied(ptn, wait[rest[0]]) then [rest[0]] + (if clr then [] else Woken(rest[1..], ptn, wait, clr))
      else Woken(rest[1..], ptn, wait, clr)
  {
    hide Satisfied;
  }

  lemma LoopTurn(s: State, c: FlgConfig, rest: seq<TaskId>, ptn: FlgPtn, wait: map<TaskId, FlgWait>, fromInt: bool, goal: State)
    requires LoopOk(s, c, rest, ptn, wait, fromInt, goal) && rest != []
    ensures var t := rest[0];
      && c.q in s.queue && c.q in s.cfg.queues && t in s.queue[c.q] && t in wait && t < |s.tcb|
      && (forall x :: x in rest[1..] ==> x in wait)
      && var more := Woken(rest[1..], ptn, wait, c.clr);
      if Satisfied(ptn, wait[t]) then
        && Woken(rest, ptn, wait, c.clr) == [t] + (if c.clr then [] else more)
        && var s1 := EndOne(s, t, fromInt);
        && CoreOk(s1) && c.q in s1.queue
        && (if c.clr then s1 == goal else LoopOk(s1, c, rest[1..], ptn, wait, fromInt, goal))
      else
        Woken(rest, ptn, wait, c.clr) == more && LoopOk(s, c, rest[1..], ptn, wait, fromInt, goal)
  {
    hide CoreOk, EndEach, EndOne, Satisfied, Remove;
    var t := rest[0];
    var ws := Woken(rest, ptn, wait, c.clr);
    assert t in rest;
    assert forall x :: x in rest[1..] ==> x in rest && x != t;
    assert forall i, j :: 0 <= i < j < |rest[1..]| ==> rest[1..][i] != rest[1..][j];
    EndOneFacts(s, c.q, t, fromInt);
    EndEachStep(s, ws, fromInt);
    if Satisfied(ptn, wait[t]) {
      var s1 := EndOne(s, t, fromInt);
      QueueTasks(s, c.q);
      RemoveMembers(s.queue[c.q], t);
      EndEachStep(s1, ws[1..], fromInt);
    }
  }

  lemma LoopEnd(s: State, c: FlgConfig, rest: seq<TaskId>, ptn: FlgPtn, wait: map<TaskId, FlgWait>, fromInt: bool, goal: State)
    ensures LoopOk(s, c, rest, ptn, wait, fromInt, goal) && rest == [] ==> s == goal
    ensures Woken([], ptn, wait, c.clr) == []
  {
    hide CoreOk, EndEach;
    if LoopOk(s, c, rest, ptn, wait, fromInt, goal) && rest == [] {
      EndEachStep(s, [], fromInt);
    }
  }

  lemma ReportMore(seen: map<TaskId, FlgPtn>, done: seq<TaskId>, t: TaskId, ptn: FlgPtn)
    ensures Report(seen, done, ptn)[t := ptn] == Report(seen, done + [t], ptn)
  {
  }
}
