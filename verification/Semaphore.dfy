/**
 semaphore.c: one semaphore, and what its users can count on over all runs.
 */
module Semaphores {
  import opened KernelState
  import opened KernelRuns
  import opened WaitSteps
  import opened ObjectSteps
  import opened Kernels
  import opened ObjectCalls
  import opened TaskSync
  import S = KernelSpec

  /** The kernel with a semaphore's resource count. */
  datatype SemState = SemState(s: State, cnt: nat)

  datatype SemResult = SemResult(x: SemState, out: S.Outcome)

  /** What the configurator generates for a semaphore. */
  datatype SemConfig = SemConfig(q: QName, isemcnt: nat, maxsem: nat)

  /** Nobody waits while there is a resource. */
  ghost predicate SemOk(x: SemState, c: SemConfig) {
    && Inv(x.s) && c.q in x.s.cfg.queues && c.q in x.s.queue && c.isemcnt <= c.maxsem
    && S.AllTasks(x.s.queue[c.q], |x.s.tcb|) && c.q.Wait? && x.s.cfg.time.Ok()
    && x.cnt <= c.maxsem
    && (x.s.queue[c.q] != [] ==> x.cnt == 0)
  }

  /** sig_sem, and isig_sem if `fromInt`. */
  ghost function SignalStep(x: SemState, c: SemConfig, fromInt: bool): SemResult
    requires SemOk(x, c)
  {
    if !InContext(x.s, fromInt) then SemResult(x, S.Returns(E_CTX))
    else if x.s.queue[c.q] != [] then SemResult(x.(s := HandOver(x.s, c.q, fromInt)), S.Returns(E_OK))
    else if x.cnt < c.maxsem then SemResult(x.(cnt := x.cnt + 1), S.Returns(E_OK))
    else SemResult(x, S.Returns(E_QOVR))
  }

  /** twai_sem, and wai_sem if `tmout` is TMO_FEVR. */
  ghost function AcquireStep(x: SemState, c: SemConfig, tmout: int): SemResult
    requires SemOk(x, c)
  {
    if !S.MayWait(x.s) then SemResult(x, S.Returns(E_CTX))
    else if tmout < S.TMO_FEVR then SemResult(x, S.Returns(E_PAR))
    else if x.cnt >= 1 then SemResult(x.(cnt := x.cnt - 1), S.Returns(E_OK))
    else if tmout == S.TMO_POL then SemResult(x, S.Returns(E_TMOUT))
    else SemResult(x.(s := S.WaitOn(x.s, c.q, tmout).s), S.Blocks)
  }

  /** pol_sem. */
  ghost function PollStep(x: SemState, c: SemConfig): SemResult
    requires SemOk(x, c)
  {
    if !S.InTask(x.s) then SemResult(x, S.Returns(E_CTX))
    else if x.cnt >= 1 then SemResult(x.(cnt := x.cnt - 1), S.Returns(E_OK))
    else SemResult(x, S.Returns(E_TMOUT))
  }

  /** ini_sem. */
  ghost function ResetStep(x: SemState, c: SemConfig): SemResult
    requires SemOk(x, c)
  {
    if !S.InTask(x.s) then SemResult(x, S.Returns(E_CTX))
    else SemResult(SemState(S.EndWaits(x.s, x.s.queue[c.q], E_DLT), c.isemcnt), S.Returns(E_OK))
  }

  // ----- runs -----

  datatype SemOp = Other(op: Op) | Sig(fromInt: bool) | Twai(tmout: int) | Pol | Ini

  ghost predicate SemEnabled(x: SemState, c: SemConfig, op: SemOp)
    requires SemOk(x, c)
  {
    match op
    case Other(op) => Enabled(x.s, op) && Foreign(x.s, op, c.q)
    case Twai(tmout) => tmout <= x.s.cfg.time.tmax
    case _ => true
  }

  ghost function SemDo(x: SemState, c: SemConfig, op: SemOp): SemResult
    requires SemOk(x, c) && SemEnabled(x, c, op)
  {
    match op
    case Other(op) => SemShape(x, c); SemResult(x.(s := Do(x.s, op)), S.Blocks)
    case Sig(fromInt) => SignalStep(x, c, fromInt)
    case Twai(tmout) => AcquireStep(x, c, tmout)
    case Pol => PollStep(x, c)
    case Ini => ResetStep(x, c)
  }

  lemma SemShape(x: SemState, c: SemConfig)
    requires SemOk(x, c)
    ensures ShapeOk(x.s)
  {
    hide DispatchOk, QueuesOk, TimersOk, Sorted, ClockOk;
  }

  lemma SemStepKeeps(x: SemState, c: SemConfig, op: SemOp)
    requires SemOk(x, c) && SemEnabled(x, c, op)
    ensures SemOk(SemDo(x, c, op).x, c)
  {
    hide Inv, ShapeOk, Enabled, Do, Foreign, HandOver, S.WaitOn, S.EndWaits;
    var y := SemDo(x, c, op).x;
    match op
    case Other(op) =>
      ForeignLeaves(x.s, op, c.q);
      ObjectQueue(y.s, c.q);
      assert y.s.queue[c.q] != [] ==> y.s.queue[c.q][0] in y.s.queue[c.q];
    case Sig(fromInt) =>
      if InContext(x.s, fromInt) && x.s.queue[c.q] != [] {
        HandOverFacts(x.s, c.q, fromInt);
        ObjectQueue(y.s, c.q);
      }
    case Twai(tmout) =>
      if S.MayWait(x.s) && tmout >= S.TMO_FEVR && tmout != S.TMO_POL && x.cnt == 0 {
        JoinFacts(x.s, c.q, tmout);
        ObjectQueue(y.s, c.q);
      }
    case Pol =>
    case Ini =>
      IniFacts(x, c);
  }

  lemma IniFacts(x: SemState, c: SemConfig)
    requires SemOk(x, c)
    ensures SemOk(ResetStep(x, c).x, c)
    ensures S.InTask(x.s) ==> ResetStep(x, c).x.s.queue[c.q] == []
  {
    hide CoreOk, DispatchOk, S.ReleaseAll, Sched;
    if S.InTask(x.s) {
      ObjectQueue(x.s, c.q);
      EndWaitsKeeps(x.s, x.s.queue[c.q], E_DLT);
      FlushFacts(x.s, c.q, E_DLT);
      ObjectQueue(ResetStep(x, c).x.s, c.q);
    }
  }

  /** The tasks whose wait in `q` has ended with E_OK in a step from `s` to `s'`. */
  ghost function Served(s: State, s': State, q: QName): set<TaskId>
    requires q in s.queue
  {
    set t | t in s.queue[q] && t < |s'.tcb| && s'.tcb[t].winfo == Wercd(E_OK)
  }

  /** A semaphore with the number of signals that were accepted and the number of resources
      that tasks got, both since the last initialisation. A task gets a resource at once, or
      when its wait ends with E_OK. */
  datatype Ledger = Ledger(x: SemState, given: nat, taken: nat)

  ghost function LedgerDo(l: Ledger, c: SemConfig, op: SemOp): Ledger
    requires SemOk(l.x, c) && SemEnabled(l.x, c, op)
  {
    var r := SemDo(l.x, c, op);
    var ok := r.out == S.Returns(E_OK);
    if op.Ini? && ok then Ledger(r.x, 0, 0)
    else Ledger(
      r.x,
      if op.Sig? && ok then l.given + 1 else l.given,
      l.taken + (if (op.Twai? || op.Pol?) && ok then 1 else 0) + |Served(l.x.s, r.x.s, c.q)|)
  }

  ghost predicate SemRun(l: Ledger, c: SemConfig, ops: seq<SemOp>, l': Ledger)
    decreases |ops|
  {
    if ops == [] then l == l'
    else SemOk(l.x, c) && SemEnabled(l.x, c, ops[0]) && SemRun(LedgerDo(l, c, ops[0]), c, ops[1..], l')
  }

  lemma ServedIs(x: SemState, c: SemConfig, op: SemOp)
    requires SemOk(x, c) && SemEnabled(x, c, op)
    ensures var r := SemDo(x, c, op);
      && |r.x.s.tcb| == |x.s.tcb|
      && Served(x.s, r.x.s, c.q) ==
        if op.Sig? && r.out == S.Returns(E_OK) && x.s.queue[c.q] != [] then {x.s.queue[c.q][0]} else {}
  {
    hide Inv, ShapeOk, Enabled, Do, Foreign, HandOver, S.WaitOn, S.EndWaits;
    var y := SemDo(x, c, op).x;
    ObjectQueue(x.s, c.q);
    match op
    case Other(op) =>
      ForeignLeaves(x.s, op, c.q);
    case Sig(fromInt) =>
      if InContext(x.s, fromInt) && x.s.queue[c.q] != [] {
        HandOverFacts(x.s, c.q, fromInt);
        assert x.s.queue[c.q][0] in x.s.queue[c.q];
      }
    case Twai(tmout) =>
      if S.MayWait(x.s) && tmout >= S.TMO_FEVR && tmout != S.TMO_POL && x.cnt == 0 {
        JoinFacts(x.s, c.q, tmout);
      }
    case Pol =>
    case Ini =>
      IniServes(x, c);
  }

  lemma IniServes(x: SemState, c: SemConfig)
    requires SemOk(x, c)
    ensures var y := ResetStep(x, c).x;
      |y.s.tcb| == |x.s.tcb| && Served(x.s, y.s, c.q) == {}
  {
    hide CoreOk, DispatchOk, S.ReleaseAll, Sched;
    ObjectQueue(x.s, c.q);
    FlushFacts(x.s, c.q, E_DLT);
  }

  /** Conservation: at any time the count is what it was initially, plus the signals that were
      accepted, less the resources that tasks got; and nobody waits while there is one. */
  lemma {:induction false} Conservation(l: Ledger, c: SemConfig, ops: seq<SemOp>, l': Ledger)
    requires SemOk(l.x, c) && l.x.cnt + l.taken == c.isemcnt + l.given && SemRun(l, c, ops, l')
    ensures SemOk(l'.x, c) && l'.x.cnt + l'.taken == c.isemcnt + l'.given
    decreases |ops|
  {
    hide SemOk, SemEnabled, SemDo;
    if ops != [] {
      SemStepKeeps(l.x, c, ops[0]);
      Balance(l.x, c, ops[0]);
      Conservation(LedgerDo(l, c, ops[0]), c, ops[1..], l');
    }
  }

  /** One step keeps the balance. */
  lemma Balance(x: SemState, c: SemConfig, op: SemOp)
    requires SemOk(x, c) && SemEnabled(x, c, op)
    ensures var r := SemDo(x, c, op);
      var ok := r.out == S.Returns(E_OK);
      && c.q in x.s.queue
      && (op.Ini? && ok ==> r.x.cnt == c.isemcnt)
      && (!(op.Ini? && ok) ==>
        r.x.cnt + (if (op.Twai? || op.Pol?) && ok then 1 else 0) + |Served(x.s, r.x.s, c.q)|
        == x.cnt + if op.Sig? && ok then 1 else 0)
  {
    hide Inv, Enabled, Do, Foreign, HandOver, S.WaitOn, S.EndWaits;
    ServedIs(x, c, op);
  }

  /** A wait at the semaphore ends with E_OK for the first in the queue when a signal is
      accepted, and for nobody else and at no other time. */
  lemma WaitEndsWithResource(x: SemState, c: SemConfig, op: SemOp, t: TaskId)
    requires SemOk(x, c) && SemEnabled(x, c, op) && t in x.s.queue[c.q]
    ensures var r := SemDo(x, c, op);
      && t < |r.x.s.tcb| == |x.s.tcb|
      && (r.x.s.tcb[t].winfo == Wercd(E_OK) <==>
        op.Sig? && InContext(x.s, op.fromInt) && t == x.s.queue[c.q][0])
  {
    hide Inv, Enabled, Do, Foreign, HandOver, S.WaitOn, S.EndWaits;
    ObjectQueue(x.s, c.q);
    ServedIs(x, c, op);
    var y := SemDo(x, c, op).x;
    assert t in Served(x.s, y.s, c.q) <==> y.s.tcb[t].winfo == Wercd(E_OK);
  }

  // ----- the variables -----

  /** SEMCB, with what it points to in the kernel. */
  class Semaphore {
    const k: Kernel
    const c: SemConfig
    var semcnt: nat

    ghost predicate Valid()
      reads this, k, k.tm, k.tm.heap
    {
      k.Rep() && SemOk(Value(), c)
    }

    ghost function Value(): SemState
      reads this, k, k.tm
    {
      SemState(k.View(), semcnt)
    }

    /** initialize_semaphore, for one semaphore. */
    constructor (k: Kernel, c: SemConfig)
      requires k.Rep() && SemOk(SemState(k.View(), c.isemcnt), c)
      ensures this.k == k && this.c == c && Valid() && Value() == SemState(k.View(), c.isemcnt)
    {
      this.k := k;
      this.c := c;
      semcnt := c.isemcnt;
    }

    /** sig_sem, and isig_sem if `fromInt`. */
    method SigSem(fromInt: bool) returns (ercd: Ercd)
      requires Valid()
      modifies `semcnt, k`tcb, k`queue, k`readyPrimap, k`schedtsk, k`runtsk, k`reqflg
      modifies k.tm.heap, k.tm`blocks, k.tm`times, k.tm`lastIndex, k.tm`pending
      ensures Valid()
      ensures SemResult(Value(), S.Returns(ercd)) == SignalStep(old(Value()), c, fromInt)
    {
      hide Kernel.Rep, Inv, HandOver;
      ghost var x := Value();
      SemStepKeeps(x, c, Sig(fromInt));
      var ok := CheckContext(k, fromInt);
      if !ok {
        return E_CTX;
      }
      if k.queue[c.q] != [] {
        var _ := CompleteNext(k, c.q, fromInt);
        ercd := E_OK;
      } else if semcnt < c.maxsem {
        semcnt := semcnt + 1;
        ercd := E_OK;
      } else {
        ercd := E_QOVR;
      }
    }

    /** twai_sem, and wai_sem if `tmout` is TMO_FEVR, up to the dispatch. */
    method TwaiSem(tmout: int) returns (out: S.Outcome)
      requires Valid() && tmout <= k.cfg.time.tmax
      modifies `semcnt, k`tcb, k`queue, k`readyPrimap, k`schedtsk, k`runtsk
      modifies k.tm.heap, k.tm`blocks, k.tm`times, k.tm`lastIndex, k.tm`pending
      ensures Valid()
      ensures SemResult(Value(), out) == AcquireStep(old(Value()), c, tmout)
    {
      hide Kernel.Rep, Inv, S.WaitOn;
      ghost var x := Value();
      SemStepKeeps(x, c, Twai(tmout));
      var ok := CheckDispatch(k);
      if !ok {
        return S.Returns(E_CTX);
      }
      if tmout < S.TMO_FEVR {
        return S.Returns(E_PAR);
      }
      if semcnt >= 1 {
        semcnt := semcnt - 1;
        out := S.Returns(E_OK);
      } else if tmout == S.TMO_POL {
        out := S.Returns(E_TMOUT);
      } else {
        WaitNow(k, c.q, tmout);
        out := S.Blocks;
      }
    }

    /** pol_sem. */
    method PolSem() returns (ercd: Ercd)
      requires Valid()
      modifies `semcnt
      ensures Valid()
      ensures SemResult(Value(), S.Returns(ercd)) == PollStep(old(Value()), c)
    {
      hide Kernel.Rep, Inv;
      SemStepKeeps(Value(), c, Pol);
      var ok := CheckContext(k, false);
      if !ok {
        return E_CTX;
      }
      if semcnt >= 1 {
        semcnt := semcnt - 1;
        ercd := E_OK;
      } else {
        ercd := E_TMOUT;
      }
    }

    /** ini_sem. */
    method IniSem() returns (ercd: Ercd)
      requires Valid()
      modifies `semcnt, k`tcb, k`queue, k`readyPrimap, k`schedtsk, k`runtsk
      modifies k.tm.heap, k.tm`blocks, k.tm`times, k.tm`lastIndex, k.tm`pending
      ensures Valid()
      ensures SemResult(Value(), S.Returns(ercd)) == ResetStep(old(Value()), c)
    {
      hide Kernel.Rep, Inv, S.EndWaits;
      SemStepKeeps(Value(), c, Ini);
      var ok := CheckContext(k, false);
      if !ok {
        return E_CTX;
      }
      DeleteAll(k, c.q);
      semcnt := c.isemcnt;
      return E_OK;
    }
  }
}
