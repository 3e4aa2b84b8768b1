/**
 A run from start-up in which a block gets two holders: a task is preempted in rel_mpf between
 the checks and the locked part; another one returns the same block, gets it again, and goes to
 sleep; then the first one goes on.
 */
module DoubleReturns {
  import opened Common
  import opened Subsequence
  import opened SystemTime
  import opened KernelState
  import opened KernelRuns
  import opened ObjectSteps
  import opened WaitSteps
  import opened Worlds
  import opened MemPools
  import opened LateReturns
  import S = KernelSpec

  const MQ := Wait(MPF, 0)
  const CFG := Config(TimeConfig(0x1_0000_0000, 1, 1, 1000), [5, 3], {MQ}, {}, [], [], 0)
  const POOL := MpfConfig(MQ, 1, 16, 1000)

  // ----- what the kernel does -----

  /** Of the ready queues, only those of the priorities 3 and 5 can have tasks. */
  ghost predicate TwoQueues(queue: map<QName, seq<TaskId>>, high: seq<TaskId>, low: seq<TaskId>) {
    forall p: nat :: p < TNUM_TPRI ==>
      Ready(p) in queue && queue[Ready(p)] == if p == 3 then high else if p == 5 then low else []
  }

  lemma {:induction false} SkipEmpty(queue: map<QName, seq<TaskId>>, p: nat, r: nat)
    requires p <= r <= TNUM_TPRI && forall q: nat :: p <= q < r ==> Ready(q) in queue && queue[Ready(q)] == []
    ensures BestFrom(queue, p) == BestFrom(queue, r)
    decreases r - p
  {
    if p < r {
      SkipEmpty(queue, p + 1, r);
    }
  }

  lemma BestOfTwo(queue: map<QName, seq<TaskId>>, high: seq<TaskId>, low: seq<TaskId>)
    requires TwoQueues(queue, high, low)
    ensures Sched(queue) == if high != [] then Some(high[0]) else if low != [] then Some(low[0]) else None
  {
    SkipEmpty(queue, 0, 3);
    SkipEmpty(queue, 4, 5);
    SkipEmpty(queue, 6, 16);
  }

  /** Task 0 runs, and task 1 is dormant. */
  ghost predicate First(s: State) {
    && s.cfg == CFG && !s.intctx && !s.ticking && !s.reqflg && s.dspflg && s.runtsk == Some(0)
    && |s.tcb| == 2 && s.tcb[0].tstat == TS_RUNNABLE && s.tcb[0].priority == 5
    && s.tcb[1].tstat == TS_DORMANT && s.tcb[1].priority == 3 && !s.tcb[1].wupque
    && TwoQueues(s.queue, [], [0])
  }

  lemma ConfigOk()
    ensures CFG.Ok()
  {
  }

  lemma Booted()
    ensures CFG.Ok() && First(Boot(CFG, [0, 1], {0}, [])) && Inv(Boot(CFG, [0, 1], {0}, []))
  {
    hide Inv, Sched, Boot, First;
    ConfigOk();
    assert S.AllTasks([0, 1], 2) && NoDup([0, 1]);
    BootOk(CFG, [0, 1], {0}, []);
    FirstRuns();
  }

  lemma FirstRuns()
    requires CFG.time.Ok() && S.AllTasks([0, 1], 2)
    ensures First(Boot(CFG, [0, 1], {0}, []))
  {
    hide Sched;
    var s1 := S.MakeActive(Empty(CFG, []), 0);
    OneActive(s1);
    assert TwoQueues(s1.queue, [], [0]);
    BestOfTwo(s1.queue, [], [0]);
  }

  lemma OneActive(s1: State)
    requires CFG.time.Ok() && S.AllTasks([0, 1], 2) && s1 == S.MakeActive(Empty(CFG, []), 0)
    ensures ActivateAll(Empty(CFG, []), [0, 1], {0}) == s1
  {
    hide S.MakeActive, Empty;
    assert [0, 1][1..] == [1] && [1][1..] == [];
  }

  /** Task 1 runs. */
  ghost predicate Second(s: State) {
    && s.cfg == CFG && !s.intctx && !s.ticking && s.dspflg && s.runtsk == Some(1) && |s.tcb| == 2
    && s.tcb[1].tstat == TS_RUNNABLE && s.tcb[1].priority == 3 && !s.tcb[1].wupque && TwoQueues(s.queue, [1], [0])
  }

  lemma HandlerEntered(s: State)
    requires Inv(s) && First(s)
    ensures ShapeOk(s) && Enabled(s, OpEnterInt) && Do(s, OpEnterInt) == S.EnterInt(s) && Inv(S.EnterInt(s))
  {
    hide CoreOk, DispatchOk, First;
    InvShape(s);
    StepKeeps(s, OpEnterInt);
  }

  /** An interrupt handler activates task 1, which has the better priority. */
  lemma SecondActivated(s: State)
    requires Inv(S.EnterInt(s)) && First(s)
    ensures var s1 := S.EnterInt(s);
      && ShapeOk(s1) && Enabled(s1, OpIActTsk(2))
      && var s2 := Do(s1, OpIActTsk(2));
      && Inv(s2) && s2.reqflg && s2.intctx && s2 == s1.(tcb := s2.tcb, queue := s2.queue, reqflg := true)
      && TwoQueues(s2.queue, [1], [0]) && |s2.tcb| == 2 && s2.tcb[1] == s.tcb[1].(tstat := TS_RUNNABLE)
  {
    hide CoreOk, DispatchOk, Sched;
    var s1 := S.EnterInt(s);
    InvShape(s1);
    StepKeeps(s1, OpIActTsk(2));
    BestOfTwo(s1.queue, [], [0]);
    var s2 := S.MakeActive(s1, 1);
    assert TwoQueues(s2.queue, [1], [0]);
    BestOfTwo(s2.queue, [1], [0]);
  }

  lemma HandlerLeft(s: State)
    requires Inv(s) && s.intctx && s.reqflg && !s.ticking && s.dspflg && s.cfg == CFG && TwoQueues(s.queue, [1], [0])
    requires |s.tcb| == 2 && s.tcb[1].tstat == TS_RUNNABLE && s.tcb[1].priority == 3 && !s.tcb[1].wupque
    ensures ShapeOk(s) && Enabled(s, OpExitInt) && Second(Do(s, OpExitInt))
  {
    hide CoreOk, DispatchOk, Sched;
    InvShape(s);
    BestOfTwo(s.queue, [1], [0]);
  }

  /** It goes to sleep. */
  lemma Sleeps(s: State)
    requires Inv(s) && Second(s)
    ensures ShapeOk(s) && Enabled(s, OpTslpTsk(S.TMO_FEVR))
    ensures var s' := Do(s, OpTslpTsk(S.TMO_FEVR)); !s'.intctx && s'.runtsk == Some(0) && |s'.tcb| == 2
  {
    hide CoreOk, DispatchOk, Sched;
    InvShape(s);
    var s' := S.MakeWait(s, SLP, s.tcb[1].wobj, None);
    assert TwoQueues(s'.queue, [], [0]);
    BestOfTwo(s'.queue, [], [0]);
  }

  // ----- what happens to the pool -----

  /** Nobody waits for a block. */
  ghost predicate Quiet(l: Late) {
    LateOk(l, POOL) && MQ in l.l.x.s.queue && l.l.x.s.queue[MQ] == [] && MQ !in l.l.x.s.cfg.tpri
  }

  lemma KernelGoes(l: Late, op: Op) returns (l': Late)
    requires Quiet(l) && ShapeOk(l.l.x.s) && Enabled(l.l.x.s, op) && Foreign(l.l.x.s, op, MQ)
    ensures LateEnabled(l, POOL, Step(Other(op))) && Stands(l, POOL, Step(Other(op))) && l' == LateDo(l, POOL, Step(Other(op)))
    ensures Quiet(l') && l' == l.(l := l.l.(x := l.l.x.(s := Do(l.l.x.s, op))))
  {
    hide MpfOk, HeldOnce, NoteOk, ShapeOk, Enabled, Do, Foreign, Handed;
    OtherKeeps(l.l.x, POOL, op);
    PoolInv(l.l.x);
    ForeignLeaves(l.l.x.s, op, MQ);
    l' := LateDo(l, POOL, Step(Other(op)));
    LateStepKeeps(l, POOL, Step(Other(op)));
    NoneLeft(l'.l.x.s.queue[MQ]);
  }

  lemma NoneLeft(q: seq<TaskId>)
    requires Subseq(q, [])
    ensures q == []
  {
  }

  lemma PoolInv(x: MpfState)
    requires MpfOk(x, POOL)
    ensures Inv(x.s) && MQ in x.s.cfg.queues
  {
    hide Inv;
  }

  lemma BlockTaken(l: Late) returns (l': Late)
    requires Quiet(l) && S.InTask(l.l.x.s) && Free(l.l.x.pool, POOL) > 0 && GetBlock(l.l.x.pool).1 == 0
    ensures LateEnabled(l, POOL, Step(Pget)) && Stands(l, POOL, Step(Pget)) && l' == LateDo(l, POOL, Step(Pget))
    ensures Quiet(l')
    ensures l' == l.(l := Holders(l.l.x.(pool := GetBlock(l.l.x.pool).0), l.l.grants[l.l.next := Grant(0, Me(l.l.x.s))], l.l.next + 1))
  {
    hide MpfOk, HeldOnce, NoteOk, GetBlock, Handed, Free;
    IndexIs(POOL, 0);
    l' := LateDo(l, POOL, Step(Pget));
    LateStepKeeps(l, POOL, Step(Pget));
  }

  /** The running task passes the checks with the only block. */
  lemma ChecksPassed(l: Late) returns (l1: Late, l2: Late)
    requires Quiet(l) && S.InTask(l.l.x.s) && Allocated(l.l.x.pool, 0)
    ensures LateEnabled(l, POOL, CheckBound(1000)) && Stands(l, POOL, CheckBound(1000)) && l1 == LateDo(l, POOL, CheckBound(1000))
    ensures LateOk(l1, POOL) && LateEnabled(l1, POOL, CheckAlloc(true)) && Stands(l1, POOL, CheckAlloc(true)) && l2 == LateDo(l1, POOL, CheckAlloc(true))
    ensures Quiet(l2) && l2.l == l.l && l2.pend == l.pend[Me(l.l.x.s) := Accepted(1000, GrantOf(l.l, 0))]
  {
    hide MpfOk, HeldOnce, NoteOk;
    l1 := LateDo(l, POOL, CheckBound(1000));
    LateStepKeeps(l, POOL, CheckBound(1000));
    l2 := LateDo(l1, POOL, CheckAlloc(true));
    LateStepKeeps(l1, POOL, CheckAlloc(true));
  }

  lemma BlockReturned(l: Late) returns (l': Late)
    requires Quiet(l) && LateEnabled(l, POOL, Commit) && l.pend[Me(l.l.x.s)].blk == 1000 && l.pend[Me(l.l.x.s)].grant.Some?
    ensures l' == LateDo(l, POOL, Commit)
    ensures l' == Late(
      Holders(l.l.x.(pool := Pool([0] + l.l.x.pool.freelist, l.l.x.pool.unused)), l.l.grants - {l.pend[Me(l.l.x.s)].grant.value}, l.l.next),
      l.pend - {Me(l.l.x.s)})
    ensures Stands(l, POOL, Commit) ==> Quiet(l')
  {
    hide MpfOk, HeldOnce, NoteOk;
    l' := LateDo(l, POOL, Commit);
    if Stands(l, POOL, Commit) {
      LateStepKeeps(l, POOL, Commit);
    }
  }

  function Start(): Late {
    Late(Holders(MpfState(Boot(CFG, [0, 1], {0}, []), Pool([], 0), map[]), map[], 0), map[])
  }

  lemma Started()
    ensures CFG.Ok() && Quiet(Start()) && Inv(Start().l.x.s) && First(Start().l.x.s)
  {
    hide Inv, Boot, MpfOk, First, ObjOk;
    Booted();
    assert S.AllTasks([0, 1], 2) && NoDup([0, 1]);
    NobodyWaits(CFG, [0, 1], {0}, [], MQ);
    var o := Mpf(POOL, Pool([], 0), map[]);
    FreshOk(CFG, [0, 1], {0}, [], o);
    PoolObject(Start().l.x.s);
    NothingHeld(Start().l);
  }

  lemma PoolObject(s: State)
    requires ObjOk(s, Mpf(POOL, Pool([], 0), map[]))
    ensures MpfOk(MpfState(s, Pool([], 0), map[]), POOL)
  {
    hide MpfOk;
  }

  lemma LateThen(l: Late, ops: seq<LateOp>, l1: Late, op: LateOp, l2: Late)
    requires LateRun(l, POOL, ops, l1) && LateOk(l1, POOL) && LateEnabled(l1, POOL, op) && Stands(l1, POOL, op) && l2 == LateDo(l1, POOL, op)
    ensures LateRun(l, POOL, ops + [op], l2)
    decreases |ops|
  {
    hide LateOk, LateEnabled, Stands, LateDo;
    if ops == [] {
      assert [op][1..] == [] && ops + [op] == [op];
    } else {
      LateThen(LateDo(l, POOL, ops[0]), ops[1..], l1, op, l2);
      assert (ops + [op])[1..] == ops[1..] + [op];
    }
  }

  lemma QuietOk(l: Late)
    requires Quiet(l)
    ensures LateOk(l, POOL) && LateRun(l, POOL, [], l)
  {
    hide LateOk;
  }

  lemma OneGrant(l: Holders, g: nat, t: TaskId)
    requires l.grants == map[g := Grant(0, t)]
    ensures GrantOf(l, 0) == Some(g)
  {
    assert g in l.grants && l.grants[g].idx == 0;
  }

  /** Task 0 gets the block and passes the checks of rel_mpf with it. */
  lemma FirstChecks() returns (ops: seq<LateOp>, l: Late)
    ensures Quiet(Start()) && LateRun(Start(), POOL, ops, l) && Quiet(l) && Inv(l.l.x.s) && First(l.l.x.s)
    ensures l == Late(Holders(MpfState(l.l.x.s, Pool([], 1), map[]), map[0 := Grant(0, 0)], 1), map[0 := Accepted(1000, Some(0))])
  {
    hide Quiet, LateOk, LateEnabled, LateDo, Stands, LateRun, Inv, TwoQueues, Boot;
    Started();
    QuietOk(Start());
    var l1 := BlockTaken(Start());
    OneGrant(l1.l, 0, 0);
    var l2;
    l2, l := ChecksPassed(l1);
    QuietOk(l1);
    LateThen(Start(), [], Start(), Step(Pget), l1);
    ops := [] + [Step(Pget)];
    LateThen(Start(), ops, l1, CheckBound(1000), l2);
    LateThen(Start(), ops + [CheckBound(1000)], l2, CheckAlloc(true), l);
    ops := ops + [CheckBound(1000)] + [CheckAlloc(true)];
  }

  /** Task 1 takes over. */
  lemma Preemption(l: Late) returns (ops: seq<LateOp>, l': Late)
    requires Quiet(l) && Inv(l.l.x.s) && First(l.l.x.s)
    ensures LateRun(l, POOL, ops, l') && Quiet(l') && Inv(l'.l.x.s) && Second(l'.l.x.s)
    ensures l' == l.(l := l.l.(x := l.l.x.(s := l'.l.x.s)))
  {
    hide Quiet, LateOk, LateEnabled, LateDo, Stands, LateRun, Inv, TwoQueues, Do, Enabled, ShapeOk, S.EnterInt;
    QuietOk(l);
    HandlerEntered(l.l.x.s);
    var l1 := KernelGoes(l, OpEnterInt);
    SecondActivated(l.l.x.s);
    var l2 := KernelGoes(l1, OpIActTsk(2));
    IntEntered(l.l.x.s);
    HandlerLeft(l2.l.x.s);
    StepKeeps(l2.l.x.s, OpExitInt);
    l' := KernelGoes(l2, OpExitInt);
    QuietOk(l1);
    QuietOk(l2);
    LateThen(l, [], l, Step(Other(OpEnterInt)), l1);
    ops := [] + [Step(Other(OpEnterInt))];
    LateThen(l, ops, l1, Step(Other(OpIActTsk(2))), l2);
    LateThen(l, ops + [Step(Other(OpIActTsk(2)))], l2, Step(Other(OpExitInt)), l');
    ops := ops + [Step(Other(OpIActTsk(2)))] + [Step(Other(OpExitInt))];
  }

  lemma IntEntered(s: State)
    ensures S.EnterInt(s) == s.(intctx := true)
  {
  }

  /** It returns the block, gets it again, and goes to sleep. */
  lemma Reuse(l: Late) returns (ops: seq<LateOp>, l': Late)
    requires Quiet(l) && Inv(l.l.x.s) && Second(l.l.x.s)
    requires l == Late(Holders(MpfState(l.l.x.s, Pool([], 1), map[]), map[0 := Grant(0, 0)], 1), map[0 := Accepted(1000, Some(0))])
    ensures LateRun(l, POOL, ops, l') && Quiet(l') && S.InTask(l'.l.x.s) && Me(l'.l.x.s) == 0
    ensures l' == Late(Holders(MpfState(l'.l.x.s, Pool([], 1), map[]), map[1 := Grant(0, 1)], 2), map[0 := Accepted(1000, Some(0))])
  {
    hide Quiet, LateOk, LateEnabled, LateDo, Stands, LateRun, Inv, TwoQueues, Do, Enabled, ShapeOk;
    QuietOk(l);
    OneGrant(l.l, 0, 0);
    var l1, l2 := ChecksPassed(l);
    QuietOk(l2);
    ReadyToCommit(l2);
    var l3 := BlockReturned(l2);
    QuietOk(l3);
    assert l3.l.x.pool == Pool([0], 1) && l3.l.grants == map[] && l3.pend == map[0 := Accepted(1000, Some(0))];
    var l4 := BlockTaken(l3);
    QuietOk(l4);
    Sleeps(l4.l.x.s);
    l' := KernelGoes(l4, OpTslpTsk(S.TMO_FEVR));
    LateThen(l, [], l, CheckBound(1000), l1);
    ops := [] + [CheckBound(1000)];
    LateThen(l, ops, l1, CheckAlloc(true), l2);
    LateThen(l, ops + [CheckAlloc(true)], l2, Commit, l3);
    ops := ops + [CheckAlloc(true)] + [Commit];
    LateThen(l, ops, l3, Step(Pget), l4);
    LateThen(l, ops + [Step(Pget)], l4, Step(Other(OpTslpTsk(S.TMO_FEVR))), l');
    ops := ops + [Step(Pget)] + [Step(Other(OpTslpTsk(S.TMO_FEVR)))];
  }

  lemma ReadyToCommit(l: Late)
    requires Quiet(l) && S.InTask(l.l.x.s) && Me(l.l.x.s) in l.pend && l.pend[Me(l.l.x.s)].Accepted?
    ensures LateOk(l, POOL) && LateEnabled(l, POOL, Commit)
    ensures Stands(l, POOL, Commit) <==> l.pend[Me(l.l.x.s)].grant.Some? && l.pend[Me(l.l.x.s)].grant.value in l.l.grants
  {
    hide LateOk;
  }

  lemma {:induction false} LateAppend(l: Late, ops1: seq<LateOp>, l1: Late, ops2: seq<LateOp>, l2: Late)
    requires LateRun(l, POOL, ops1, l1) && LateRun(l1, POOL, ops2, l2)
    ensures LateRun(l, POOL, ops1 + ops2, l2)
    decreases |ops1|
  {
    hide LateOk, LateEnabled, Stands, LateDo;
    if ops1 == [] {
      assert ops1 + ops2 == ops2;
    } else {
      LateAppend(LateDo(l, POOL, ops1[0]), ops1[1..], l1, ops2, l2);
      assert (ops1 + ops2)[1..] == ops1[1..] + ops2;
    }
  }

  /** Task 0 goes on and puts the block, which it no longer has, into the free list. The list is
      in order; but the next task that wants a block gets the one that task 1 holds. */
  lemma TwoHolders() returns (ops: seq<LateOp>, l: Late)
    ensures Quiet(Start()) && LateRun(Start(), POOL, ops, l) && LateOk(l, POOL) && LateEnabled(l, POOL, Commit)
    ensures var after := LateDo(l, POOL, Commit).l;
      && PoolOk(after.x.pool, POOL) && !HeldOnce(after)
      && Holds(after, 1, 0) && Free(after.x.pool, POOL) > 0 && GetBlock(after.x.pool).1 == 0
  {
    hide Quiet, LateOk, LateEnabled, LateDo, Stands, LateRun, Inv, First, Second, HeldOnce;
    var ops1, l1 := FirstChecks();
    var ops2, l2 := Preemption(l1);
    var ops3;
    ops3, l := Reuse(l2);
    LateAppend(Start(), ops1, l1, ops2, l2);
    LateAppend(Start(), ops1 + ops2, l2, ops3, l);
    ops := ops1 + ops2 + ops3;
    ReadyToCommit(l);
    CommitKeepsIff(l, POOL);
    var end := BlockReturned(l);
    assert end.l.grants[1] == Grant(0, 1);
  }
}
