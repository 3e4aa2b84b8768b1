/**
 A run from start-up in which a forced send overtakes a waiting one: a task stores a datum in a
 data queue with room for one, and waits to send a second one; an interrupt handler forces a
 third one in.
 */
module ForcedSends {
  import opened Common
  import opened Subsequence
  import opened KernelState
  import opened SystemTime
  import opened KernelRuns
  import opened ObjectSteps
  import opened Worlds
  import opened DataQueues
  import opened DataQueueRuns
  import opened DataFlows
  import S = KernelSpec

  const SQ := Wait(SDTQ, 0)
  const RQ := Wait(RDTQ, 0)
  const CFG := Config(TimeConfig(0x1_0000_0000, 1, 1, 1000), [5], {SQ, RQ}, {}, [], [], 0)
  const DTQ := DtqConfig(SQ, RQ, 1, false, 0)
  const FIRST := Item(1, 0)
  const SECOND := Item(2, 0)
  const FORCED := Item(3, 0)

  function Start(): State {
    Boot(CFG, [0], {0}, [])
  }

  /** If any ready queue has a task, one of them is the best. */
  lemma {:induction false} SomeBest(queue: map<QName, seq<TaskId>>, from: nat, p: nat)
    requires from <= p < TNUM_TPRI && Ready(p) in queue && queue[Ready(p)] != []
    ensures BestFrom(queue, from).Some?
    decreases p - from
  {
    if from < p {
      SomeBest(queue, from + 1, p);
    }
  }

  lemma StartRuns()
    ensures CFG.Ok() && Inv(Start()) && S.MayWait(Start()) && Start().cfg == CFG && !Start().intctx
    ensures DtqOk(DtqState(Start(), [], map[], map[]), DTQ)
    ensures SQ in Start().queue && RQ in Start().queue && Start().queue[SQ] == [] && Start().queue[RQ] == []
  {
    hide Inv, Boot, DtqOk, ObjOk;
    ConfigOk();
    var o := Dtq(DTQ, [], map[], map[]);
    assert S.AllTasks([0], 1) && NoDup([0]);
    BootOk(CFG, [0], {0}, []);
    NobodyWaits(CFG, [0], {0}, [], SQ);
    NobodyWaits(CFG, [0], {0}, [], RQ);
    OneRuns();
    RunningCan(Start());
    FreshOk(CFG, [0], {0}, [], o);
    InOneObject(Start(), [], map[], map[]);
  }

  lemma InOneObject(s: State, items: seq<Item>, sdata: map<TaskId, Item>, rdata: map<TaskId, Item>)
    requires ObjOk(s, Dtq(DTQ, items, sdata, rdata))
    ensures DtqOk(DtqState(s, items, sdata, rdata), DTQ)
  {
    hide DtqOk;
  }

  lemma ConfigOk()
    ensures CFG.Ok()
  {
  }

  lemma OneRuns()
    ensures CFG.time.Ok()
    ensures var s := Boot(CFG, [0], {0}, []); s.runtsk.Some? && s.dspflg && !s.intctx && |s.tcb| == 1
  {
    hide Sched;
    ConfigOk();
    var s0 := Empty(CFG, []);
    var s1 := S.MakeActive(s0, 0);
    assert [0][1..] == [];
    assert ActivateAll(s1, [0][1..], {0}) == s1;
    assert Ready(5) in s1.queue && s1.queue[Ready(5)] == [0];
    SomeBest(s1.queue, 0, 5);
    SchedIs(s1.queue);
  }

  lemma SchedIs(queue: map<QName, seq<TaskId>>)
    ensures Sched(queue) == BestFrom(queue, 0)
  {
  }

  function Flow0(): Flow {
    Flow(DtqState(Start(), [], map[], map[]), [], [], [])
  }

  /** The first datum is stored. */
  lemma Stored() returns (l: Flow)
    ensures DtqOk(Flow0().x, DTQ) && DtqEnabled(Flow0().x, DTQ, Tsnd(FIRST, S.TMO_FEVR))
    ensures l == FlowDo(Flow0(), DTQ, Tsnd(FIRST, S.TMO_FEVR))
    ensures l.x == Flow0().x.(items := [FIRST]) && l.accepted == l.line == [FIRST] && l.delivered == [] && DtqOk(l.x, DTQ)
    ensures Waiting(l.x, DTQ) == [] && S.MayWait(l.x.s) && l.x.s.cfg == CFG && l.x.s.queue[RQ] == []
  {
    hide Inv, Boot, Start, InPriOrder, S.AllTasks;
    StartRuns();
    var x := Flow0().x;
    DtqStepKeeps(x, DTQ, Tsnd(FIRST, S.TMO_FEVR));
    NothingDelivered(x, DTQ);
    l := FlowDo(Flow0(), DTQ, Tsnd(FIRST, S.TMO_FEVR));
  }

  /** The second one waits with its sender. */
  lemma Queued(l: Flow) returns (l': Flow)
    requires DtqOk(l.x, DTQ) && Waiting(l.x, DTQ) == [] && S.MayWait(l.x.s) && l.x.s.cfg == CFG && l.x.s.queue[RQ] == []
    requires l.x.items == l.accepted == l.line == [FIRST] && l.delivered == []
    ensures DtqEnabled(l.x, DTQ, Tsnd(SECOND, S.TMO_FEVR)) && l' == FlowDo(l, DTQ, Tsnd(SECOND, S.TMO_FEVR))
    ensures DtqOk(l'.x, DTQ) && l'.x.items == [FIRST] && l'.accepted == l'.line == [FIRST, SECOND] && l'.delivered == []
    ensures Waiting(l'.x, DTQ) == [SECOND] && l'.x.s.cfg == CFG
  {
    hide Inv, InPriOrder, S.AllTasks, S.WaitOn, Delivered, Waiting;
    WaitAppends(l.x, DTQ, SECOND, S.TMO_FEVR);
    DtqStepKeeps(l.x, DTQ, Tsnd(SECOND, S.TMO_FEVR));
    l' := FlowDo(l, DTQ, Tsnd(SECOND, S.TMO_FEVR));
    FlowIs(l, DTQ, Tsnd(SECOND, S.TMO_FEVR));
  }

  /** An interrupt handler is entered. */
  lemma Interrupted(l: Flow) returns (l': Flow)
    requires DtqOk(l.x, DTQ) && l.x.items == [FIRST] && l.accepted == l.line == [FIRST, SECOND] && l.delivered == []
    requires Waiting(l.x, DTQ) == [SECOND] && l.x.s.cfg == CFG
    ensures DtqEnabled(l.x, DTQ, Other(OpEnterInt)) && l' == FlowDo(l, DTQ, Other(OpEnterInt))
    ensures DtqOk(l'.x, DTQ) && l'.x.items == [FIRST] && l'.accepted == l'.line == [FIRST, SECOND] && l'.delivered == []
    ensures Waiting(l'.x, DTQ) == [SECOND] && l'.x.s.intctx
  {
    hide Inv, InPriOrder, S.AllTasks, Delivered;
    OtherCancels(l.x, DTQ, OpEnterInt);
    DtqStepKeeps(l.x, DTQ, Other(OpEnterInt));
    l' := FlowDo(l, DTQ, Other(OpEnterInt));
  }

  /** The third one is forced in ahead of the second. */
  lemma Forced(l: Flow) returns (l': Flow)
    requires DtqOk(l.x, DTQ) && l.x.items == [FIRST] && l.accepted == l.line == [FIRST, SECOND] && l.delivered == []
    requires Waiting(l.x, DTQ) == [SECOND] && l.x.s.intctx
    ensures DtqEnabled(l.x, DTQ, Fsnd(FORCED, true)) && l' == FlowDo(l, DTQ, Fsnd(FORCED, true))
    ensures DtqOk(l'.x, DTQ) && l'.accepted == [FIRST, SECOND, FORCED] && l'.line == [FIRST, FORCED, SECOND] && l'.delivered == []
    ensures Contents(l'.x, DTQ) == [FORCED, SECOND]
  {
    hide Inv, InPriOrder, S.AllTasks, Delivered, HandOver, Waiting, ForceStep;
    ForceEffect(l.x, DTQ, FORCED, true);
    assert l.x.s.queue[RQ] == [] by { NoReceiver(l.x); }
    DtqStepKeeps(l.x, DTQ, Fsnd(FORCED, true));
    l' := FlowDo(l, DTQ, Fsnd(FORCED, true));
  }

  lemma NoReceiver(x: DtqState)
    requires DtqOk(x, DTQ) && x.items != []
    ensures x.s.queue[RQ] == []
  {
  }

  /** So a receiver will get the third datum before the second, although it was sent after it. */
  lemma ForcedRun() returns (ops: seq<DtqOp>, l: Flow)
    ensures DtqOk(Flow0().x, DTQ) && InLine(Flow0(), DTQ, true) && FlowRun(Flow0(), DTQ, ops, l) && DtqOk(l.x, DTQ)
    ensures l.accepted == [FIRST, SECOND, FORCED] && l.line == [FIRST, FORCED, SECOND]
    ensures l.delivered + Contents(l.x, DTQ) == [FORCED, SECOND]
    ensures !Subseq(l.delivered + Contents(l.x, DTQ), l.accepted)
  {
    hide Start, DtqOk, DtqEnabled, FlowDo, Contents, Waiting;
    StartRuns();
    EmptyWaits();
    EmptyInLine(Flow0(), DTQ);
    var l1 := Stored();
    var l2 := Queued(l1);
    var l3 := Interrupted(l2);
    l := Forced(l3);
    ops := [Tsnd(FIRST, S.TMO_FEVR), Tsnd(SECOND, S.TMO_FEVR), Other(OpEnterInt), Fsnd(FORCED, true)];
    assert FlowRun(l3, DTQ, ops[3..], l);
    assert FlowRun(l2, DTQ, ops[2..], l) by { assert ops[2..][1..] == ops[3..]; }
    assert FlowRun(l1, DTQ, ops[1..], l) by { assert ops[1..][1..] == ops[2..]; }
    NotInOrder();
  }

  lemma NotInOrder()
    ensures !Subseq([FORCED, SECOND], [FIRST, SECOND, FORCED])
  {
    var a := [FORCED, SECOND];
    assert a[1..] == [SECOND];
    assert !Subseq(a, []) && !Subseq([SECOND], []);
    assert [FORCED][1..] == [] && [SECOND, FORCED][1..] == [FORCED] && [FIRST, SECOND, FORCED][1..] == [SECOND, FORCED];
    assert !Subseq(a, [FORCED]);
    assert !Subseq(a, [SECOND, FORCED]);
  }

  lemma EmptyWaits()
    ensures DtqOk(Flow0().x, DTQ) && Waiting(Flow0().x, DTQ) == []
  {
    hide Inv, Boot, InPriOrder, S.AllTasks;
    StartRuns();
  }
}
