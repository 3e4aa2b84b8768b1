/**
 A data queue as one FIFO: what is stored, followed by what waiting senders bring, is one
 sequence; data are delivered in the order of the line that they stand in.
 */
module DataFlows {
  import opened Common
  import opened Subsequence
  import opened KernelState
  import opened KernelRuns
  import opened WaitSteps
  import opened ObjectSteps
  import opened DataQueues
  import opened DataQueueRuns
  import S = KernelSpec

  /** What the tasks of a queue bring. */
  function Data(q: seq<TaskId>, sdata: map<TaskId, Item>): (d: seq<Item>)
    requires forall t :: t in q ==> t in sdata
    ensures |d| == |q|
  {
    if q == [] then [] else [sdata[q[0]]] + Data(q[1..], sdata)
  }

  /** What the tasks that wait to send bring. */
  ghost function Waiting(x: DtqState, c: DtqConfig): (d: seq<Item>)
    requires DtqOk(x, c)
  {
    Data(x.s.queue[c.sq], x.sdata)
  }

  ghost function Contents(x: DtqState, c: DtqConfig): seq<Item>
    requires DtqOk(x, c)
  {
    x.items + Waiting(x, c)
  }

  lemma {:induction false} DataAppend(q: seq<TaskId>, t: TaskId, sdata: map<TaskId, Item>, item: Item)
    requires (forall x :: x in q ==> x in sdata) && t !in q
    ensures Data(q + [t], sdata[t := item]) == Data(q, sdata) + [item]
  {
    if q == [] {
      assert [t][1..] == [];
      assert [] + [t] == [t];
    } else {
      assert forall x :: x in q[1..] ==> x in q;
      assert (q + [t])[1..] == q[1..] + [t];
      DataAppend(q[1..], t, sdata, item);
      assert q[0] in q;
    }
  }

  lemma {:induction false} DataSubseq(a: seq<TaskId>, b: seq<TaskId>, sdata: map<TaskId, Item>)
    requires Subseq(a, b) && forall x :: x in b ==> x in sdata
    ensures (forall x :: x in a ==> x in sdata) && Subseq(Data(a, sdata), Data(b, sdata))
    decreases |b|
  {
    if a != [] {
      assert forall x :: x in b[1..] ==> x in b;
      if a[0] == b[0] && Subseq(a[1..], b[1..]) {
        DataSubseq(a[1..], b[1..], sdata);
        assert b[0] in b;
        assert forall x :: x in a ==> x == a[0] || x in a[1..];
        assert Data(a, sdata)[1..] == Data(a[1..], sdata) && Data(b, sdata)[1..] == Data(b[1..], sdata);
      } else {
        DataSubseq(a, b[1..], sdata);
        assert Data(b, sdata)[1..] == Data(b[1..], sdata);
      }
    }
  }

  // ----- one step of a FIFO -----

  /** What the first waiting receiver gets in a step, if its wait ends with E_OK. */
  ghost function Delivered(x: DtqState, y: DtqState, c: DtqConfig): seq<Item> {
    if c.rq !in x.s.queue || x.s.queue[c.rq] == [] then []
    else
      var t := x.s.queue[c.rq][0];
      if t < |y.s.tcb| && y.s.tcb[t].winfo == Wercd(E_OK) && t in y.rdata then [y.rdata[t]] else []
  }

  /** A receive takes the head of the sequence. */
  lemma ReceiveTakesHead(x: DtqState, c: DtqConfig)
    requires DtqOk(x, c) && !c.prio && S.InTask(x.s)
    ensures match ReceiveStep(x, c)
      case Some(r) => DtqOk(r.0, c) && Contents(x, c) == [r.1] + Contents(r.0, c) && Delivered(x, r.0, c) == []
      case None => Contents(x, c) == [] && x.items == [] && x.s.queue[c.sq] == []
  {
    hide Inv, HandOver;
    ReceiveKeeps(x, c);
    if x.s.queue[c.sq] != [] {
      ServeKeeps(x.s, c, c.sq, false);
      assert x.s.queue[c.sq][0] in x.s.queue[c.sq];
    }
  }

  /** A task that waits to send puts its datum behind those of the others. */
  lemma WaitAppends(x: DtqState, c: DtqConfig, item: Item, tmout: int)
    requires DtqOk(x, c) && c.sq !in x.s.cfg.tpri
    requires S.MayWait(x.s) && S.TMO_FEVR <= tmout <= x.s.cfg.time.tmax && tmout != S.TMO_POL
    requires x.s.queue[c.rq] == [] && |x.items| == c.cnt
    ensures var y := x.(s := S.WaitOn(x.s, c.sq, tmout).s, sdata := x.sdata[x.s.runtsk.value := item]);
      && DtqOk(y, c) && Delivered(x, y, c) == []
      && Waiting(y, c) == Waiting(x, c) + [item]
  {
    hide Inv, S.WaitOn;
    DtqWaitKeeps(x, c, item, tmout, true);
    JoinFacts(x.s, c.sq, tmout);
    DataAppend(x.s.queue[c.sq], x.s.runtsk.value, x.sdata, item);
  }

  /** A forced send drops the oldest stored datum if the buffer is full. Its datum goes to
      the end of what is stored, ahead of what waiting senders bring. */
  lemma ForceEffect(x: DtqState, c: DtqConfig, item: Item, fromInt: bool)
    requires DtqOk(x, c) && !c.prio && InContext(x.s, fromInt) && c.cnt > 0
    ensures var y := ForceStep(x, c, item, fromInt);
      && DtqOk(y, c)
      && if x.s.queue[c.rq] != []
         then Contents(x, c) == [] && Contents(y, c) == [] && Delivered(x, y, c) == [item]
         else
           && Delivered(x, y, c) == []
           && Contents(y, c) == (if |x.items| < c.cnt then x.items else x.items[1..]) + [item] + Waiting(x, c)
  {
    hide Inv, HandOver;
    ForceKeeps(x, c, item, fromInt);
    if x.s.queue[c.rq] != [] {
      ServeKeeps(x.s, c, c.rq, fromInt);
    }
  }

  /** So a forced send keeps the order of sending if and only if nobody waits to send: as
      long as its datum differs from those that wait, it overtakes them. If a receiver waits,
      the datum is delivered at once, and nobody waits to send. */
  lemma ForceKeepsOrderIff(x: DtqState, c: DtqConfig, item: Item, fromInt: bool)
    requires DtqOk(x, c) && !c.prio && InContext(x.s, fromInt) && c.cnt > 0
    requires item !in Waiting(x, c)
    ensures var y := ForceStep(x, c, item, fromInt);
      var kept := if |x.items| < c.cnt then Contents(x, c) else Contents(x, c)[1..];
      && DtqOk(y, c) && (Delivered(x, y, c) + Contents(y, c) == kept + [item] <==> Waiting(x, c) == [])
      && (x.s.queue[c.rq] != [] ==> Waiting(x, c) == [] && Delivered(x, y, c) == [item])
  {
    hide Inv, HandOver, ForceStep, Delivered;
    ForceEffect(x, c, item, fromInt);
    if x.s.queue[c.rq] == [] {
      var stored := if |x.items| < c.cnt then x.items else x.items[1..];
      var kept := if |x.items| < c.cnt then Contents(x, c) else Contents(x, c)[1..];
      assert kept == stored + Waiting(x, c);
      Overtakes(stored, Waiting(x, c), item);
    }
  }

  lemma Overtakes(stored: seq<Item>, waiting: seq<Item>, item: Item)
    requires item !in waiting
    ensures [] + (stored + [item] + waiting) == stored + waiting + [item] <==> waiting == []
  {
    if waiting != [] {
      assert ([] + (stored + [item] + waiting))[|stored|] == item;
      assert (stored + waiting + [item])[|stored|] == waiting[0];
      assert waiting[0] in waiting;
    }
  }

  /** What other steps of the kernel do: they cancel waiting sends. */
  lemma OtherCancels(x: DtqState, c: DtqConfig, op: Op)
    requires DtqOk(x, c) && Enabled(x.s, op) && Foreign(x.s, op, c.sq) && Foreign(x.s, op, c.rq)
    requires c.sq !in x.s.cfg.tpri
    ensures ShapeOk(x.s)
    ensures var y := x.(s := Do(x.s, op));
      && DtqOk(y, c) && Delivered(x, y, c) == []
      && Subseq(Waiting(y, c), Waiting(x, c))
  {
    hide Inv, ShapeOk, Enabled, Do, Foreign;
    OtherKeeps(x, c, op);
    var s' := Do(x.s, op);
    DataSubseq(s'.queue[c.sq], x.s.queue[c.sq], x.sdata);
    ObjectQueue(x.s, c.rq);
    if x.s.queue[c.rq] != [] {
      assert x.s.queue[c.rq][0] in x.s.queue[c.rq];
    }
  }

  // ----- the line -----

  /** A data queue with the data that were accepted from senders and those that were delivered
      to receivers, each in the order in which that happened; and the line that accepted data
      stand in. */
  datatype Flow = Flow(x: DtqState, accepted: seq<Item>, line: seq<Item>, delivered: seq<Item>)

  /** Was the datum of a send accepted, for good or as long as its sender waits? */
  predicate Accepted(op: DtqOp, r: DtqResult) {
    (op.Tsnd? || op.Psnd? || op.Fsnd?) && (r.out == S.Returns(E_OK) || r.out == S.Blocks)
  }

  /** All of the line but its last `n` data. */
  function Front(line: seq<Item>, n: nat): seq<Item> {
    if n <= |line| then line[..|line| - n] else []
  }

  /** Its last `n` data. */
  function Back(line: seq<Item>, n: nat): seq<Item> {
    if n <= |line| then line[|line| - n..] else line
  }

  /** Accepted data go to the end of the line, but for those of a forced send, which stand ahead
      of as many data as tasks wait to send. When tasks no longer wait to send, their data leave
      the line. Receiving does not change the line. */
  ghost function LineDo(l: Flow, c: DtqConfig, op: DtqOp): seq<Item>
    requires DtqOk(l.x, c) && DtqEnabled(l.x, c, op)
  {
    DtqStepKeeps(l.x, c, op);
    var r := DtqDo(l.x, c, op);
    var w := |Waiting(l.x, c)|;
    if op.Other? || op.Ini? then Front(l.line, w) + Waiting(r.x, c)
    else if !Accepted(op, r) then l.line
    else if op.Fsnd? then Front(l.line, w) + [op.item] + Back(l.line, w)
    else l.line + [op.item]
  }

  ghost function FlowDo(l: Flow, c: DtqConfig, op: DtqOp): Flow
    requires DtqOk(l.x, c) && DtqEnabled(l.x, c, op)
  {
    var r := DtqDo(l.x, c, op);
    Flow(r.x,
         if Accepted(op, r) then l.accepted + [op.item] else l.accepted,
         LineDo(l, c, op),
         l.delivered + (if r.item.Some? then [r.item.value] else []) + Delivered(l.x, r.x, c))
  }

  /** The data of the waiting senders stand last, in their order. Of the data before them, those
      that have been delivered and those that are stored follow each other in the order of the
      line; and if `all`, there are no others. */
  ghost predicate InLine(l: Flow, c: DtqConfig, all: bool)
    requires DtqOk(l.x, c)
  {
    var w := |Waiting(l.x, c)|;
    && w <= |l.line| && Back(l.line, w) == Waiting(l.x, c)
    && Subseq(l.delivered + l.x.items, Front(l.line, w))
    && (all ==> l.delivered + l.x.items == Front(l.line, w))
  }

  /** Steps that drop nothing stored: no re-initialisation, no forced send on a full buffer. */
  ghost predicate DropsNothing(x: DtqState, c: DtqConfig, op: DtqOp)
    requires DtqOk(x, c)
  {
    !op.Ini? && (op.Fsnd? ==> |x.items| < c.cnt)
  }

  lemma FrontBack(line: seq<Item>, n: nat)
    requires n <= |line|
    ensures Front(line, n) + Back(line, n) == line && |Back(line, n)| == n
  {
  }

  lemma BackIs(front: seq<Item>, back: seq<Item>)
    ensures Front(front + back, |back|) == front && Back(front + back, |back|) == back
  {
  }

  /** One step of the line: `put` joins what is stored or was delivered; it stood first of
      the waiting data, or is new. */
  lemma Advance(l: Flow, l': Flow, c: DtqConfig, put: seq<Item>, all: bool, drops: bool)
    requires DtqOk(l.x, c) && DtqOk(l'.x, c) && InLine(l, c, all)
    requires l'.line == Front(l.line, |Waiting(l.x, c)|) + put + Waiting(l'.x, c)
    requires l'.delivered + l'.x.items == l.delivered + l.x.items + put
      || (drops && Subseq(l'.delivered + l'.x.items, l.delivered + l.x.items + put))
    ensures InLine(l', c, all && !drops)
  {
    hide DtqOk, Waiting;
    var front := Front(l.line, |Waiting(l.x, c)|);
    BackIs(front + put, Waiting(l'.x, c));
    SubseqBehind(l.delivered + l.x.items, front, put);
    SubseqSelf(l'.delivered + l'.x.items);
    SubseqTrans(l'.delivered + l'.x.items, l.delivered + l.x.items + put, front + put);
  }

  /** What sending does to stored data and waiting senders. */
  lemma SendInLine(x: DtqState, c: DtqConfig, item: Item, fromInt: bool)
    requires DtqOk(x, c) && !c.prio && InContext(x.s, fromInt)
    ensures match SendStep(x, c, item, fromInt)
      case Some(y) =>
        && DtqOk(y, c) && Waiting(x, c) == [] && Waiting(y, c) == []
        && Delivered(x, y, c) + y.items == x.items + [item]
      case None => x.s.queue[c.rq] == [] && |x.items| == c.cnt
  {
    hide Inv, HandOver;
    SendKeeps(x, c, item, fromInt);
    if x.s.queue[c.rq] != [] {
      ServeKeeps(x.s, c, c.rq, fromInt);
    }
  }

  /** What a forced send does to them. */
  lemma ForceInLine(x: DtqState, c: DtqConfig, item: Item, fromInt: bool)
    requires DtqOk(x, c) && !c.prio && InContext(x.s, fromInt) && c.cnt > 0
    ensures var y := ForceStep(x, c, item, fromInt);
      && DtqOk(y, c) && Waiting(y, c) == Waiting(x, c)
      && Delivered(x, y, c) + y.items == (if |x.items| < c.cnt then x.items else x.items[1..]) + [item]
      && (Delivered(x, y, c) != [] ==> x.items == [])
  {
    hide Inv, HandOver;
    ForceKeeps(x, c, item, fromInt);
    if x.s.queue[c.rq] != [] {
      ServeKeeps(x.s, c, c.rq, fromInt);
    }
  }

  /** What receiving does: the first waiting datum, if there is one, joins the stored ones. */
  lemma ReceiveInLine(x: DtqState, c: DtqConfig)
    requires DtqOk(x, c) && !c.prio && S.InTask(x.s)
    ensures match ReceiveStep(x, c)
      case Some(r) =>
        && DtqOk(r.0, c) && Delivered(x, r.0, c) == []
        && var put := Waiting(x, c)[..if Waiting(x, c) == [] then 0 else 1];
        && [r.1] + r.0.items == x.items + put
        && put + Waiting(r.0, c) == Waiting(x, c)
      case None => x.items == [] && Waiting(x, c) == []
  {
    hide Inv, HandOver;
    ReceiveKeeps(x, c);
    if x.s.queue[c.sq] != [] {
      ServeKeeps(x.s, c, c.sq, false);
      assert x.s.queue[c.sq][0] in x.s.queue[c.sq];
    }
  }

  lemma LineIs(l: Flow, c: DtqConfig, all: bool)
    requires DtqOk(l.x, c) && InLine(l, c, all)
    ensures l.line == Front(l.line, |Waiting(l.x, c)|) + Waiting(l.x, c)
    ensures Back(l.line, |Waiting(l.x, c)|) == Waiting(l.x, c)
  {
    hide DtqOk;
    FrontBack(l.line, |Waiting(l.x, c)|);
  }

  lemma SendLine(l: Flow, c: DtqConfig, op: DtqOp, all: bool)
    requires DtqOk(l.x, c) && DtqEnabled(l.x, c, op) && (op.Tsnd? || op.Psnd?) && !c.prio && c.sq !in l.x.s.cfg.tpri && InLine(l, c, all)
    ensures var l' := FlowDo(l, c, op); DtqOk(l'.x, c) && InLine(l', c, all)
  {
    hide DtqOk, Enabled, S.WaitOn, SendStep, InLine, Delivered, Front, Back, Waiting;
    var x := l.x;
    var fromInt := op.Psnd? && op.fromInt;
    NothingDelivered(x, c);
    if InContext(x.s, fromInt) {
      SendInLine(x, c, op.item, fromInt);
    }
    var r := DtqDo(x, c, op);
    if r.out == S.Returns(E_OK) {
      StoredLine(l, c, op, all);
    } else if r.out == S.Blocks {
      WaitAppends(x, c, op.item, op.tmout);
      WaitsLine(l, c, op, all);
    } else {
      DtqStepKeeps(x, c, op);
      SameLine(l, FlowDo(l, c, op), c, all);
    }
  }

  lemma SameLine(l: Flow, l': Flow, c: DtqConfig, all: bool)
    requires DtqOk(l.x, c) && InLine(l, c, all) && l'.x == l.x && l'.line == l.line && l'.delivered == l.delivered
    ensures InLine(l', c, all)
  {
  }

  /** A datum is stored or goes to a waiting receiver. */
  lemma StoredLine(l: Flow, c: DtqConfig, op: DtqOp, all: bool)
    requires DtqOk(l.x, c) && DtqEnabled(l.x, c, op) && (op.Tsnd? || op.Psnd?) && InLine(l, c, all)
    requires var r := DtqDo(l.x, c, op);
      && DtqOk(r.x, c) && r.out == S.Returns(E_OK) && r.item == None
      && Waiting(l.x, c) == [] && Waiting(r.x, c) == []
      && Delivered(l.x, r.x, c) + r.x.items == l.x.items + [op.item]
    ensures InLine(FlowDo(l, c, op), c, all)
  {
    hide DtqOk, DtqEnabled, DtqDo, InLine, Delivered, Front, Back;
    var l' := FlowDo(l, c, op);
    LineIs(l, c, all);
    assert l'.delivered + l'.x.items == l.delivered + (Delivered(l.x, l'.x, c) + l'.x.items);
    assert l.delivered + (l.x.items + [op.item]) == l.delivered + l.x.items + [op.item];
    Advance(l, l', c, [op.item], all, false);
  }

  /** A sender waits. */
  lemma WaitsLine(l: Flow, c: DtqConfig, op: DtqOp, all: bool)
    requires DtqOk(l.x, c) && DtqEnabled(l.x, c, op) && (op.Tsnd? || op.Psnd?) && InLine(l, c, all)
    requires var r := DtqDo(l.x, c, op);
      && DtqOk(r.x, c) && r.out == S.Blocks && r.item == None && r.x.items == l.x.items && Delivered(l.x, r.x, c) == []
      && Waiting(r.x, c) == Waiting(l.x, c) + [op.item]
    ensures InLine(FlowDo(l, c, op), c, all)
  {
    hide DtqOk, DtqEnabled, DtqDo, InLine, Delivered, Front, Back, Waiting;
    var l' := FlowDo(l, c, op);
    LineIs(l, c, all);
    var front := Front(l.line, |Waiting(l.x, c)|);
    assert l'.line == front + [] + (Waiting(l.x, c) + [op.item]);
    assert l.delivered + l.x.items + [] == l.delivered + l.x.items;
    Advance(l, l', c, [], all, false);
  }

  lemma ReceiveLine(l: Flow, c: DtqConfig, op: DtqOp, all: bool)
    requires DtqOk(l.x, c) && DtqEnabled(l.x, c, op) && (op.Trcv? || op.Prcv?) && !c.prio && InLine(l, c, all)
    ensures var l' := FlowDo(l, c, op); DtqOk(l'.x, c) && InLine(l', c, all)
  {
    hide DtqOk, Enabled, S.WaitOn, ReceiveStep, InLine, Delivered, Front, Back, Waiting;
    var x := l.x;
    NothingDelivered(x, c);
    DtqStepKeeps(x, c, op);
    if S.InTask(x.s) {
      ReceiveInLine(x, c);
      if op.Trcv? && S.MayWait(x.s) && ReceiveStep(x, c).None? && S.TMO_FEVR <= op.tmout && op.tmout != S.TMO_POL {
        WaitTakesNothing(x, c, op.tmout);
      }
    }
    var r := DtqDo(x, c, op);
    if r.item.Some? {
      TakenLine(l, c, op, all);
    } else {
      assert r.x.items == x.items && Delivered(x, r.x, c) == [];
      assert Waiting(r.x, c) == Waiting(x, c);
      QuietLine(l, c, op, all);
    }
  }

  /** A datum is taken, and the first waiting sender's datum is stored or taken. */
  lemma TakenLine(l: Flow, c: DtqConfig, op: DtqOp, all: bool)
    requires DtqOk(l.x, c) && DtqEnabled(l.x, c, op) && (op.Trcv? || op.Prcv?) && InLine(l, c, all)
    requires var r := DtqDo(l.x, c, op);
      && DtqOk(r.x, c) && r.item.Some? && Delivered(l.x, r.x, c) == []
      && var put := Waiting(l.x, c)[..if Waiting(l.x, c) == [] then 0 else 1];
      && [r.item.value] + r.x.items == l.x.items + put
      && put + Waiting(r.x, c) == Waiting(l.x, c)
    ensures InLine(FlowDo(l, c, op), c, all)
  {
    hide DtqOk, DtqEnabled, DtqDo, InLine, Delivered, Front, Back, Waiting;
    var l' := FlowDo(l, c, op);
    LineIs(l, c, all);
    var r := DtqDo(l.x, c, op);
    var put := Waiting(l.x, c)[..if Waiting(l.x, c) == [] then 0 else 1];
    var front := Front(l.line, |Waiting(l.x, c)|);
    assert l'.line == front + put + Waiting(r.x, c);
    assert l'.delivered + l'.x.items == l.delivered + ([r.item.value] + r.x.items);
    assert l.delivered + (l.x.items + put) == l.delivered + l.x.items + put;
    Advance(l, l', c, put, all, false);
  }

  /** A receiver waits, or nothing happens. */
  lemma QuietLine(l: Flow, c: DtqConfig, op: DtqOp, all: bool)
    requires DtqOk(l.x, c) && DtqEnabled(l.x, c, op) && (op.Trcv? || op.Prcv?) && InLine(l, c, all)
    requires var r := DtqDo(l.x, c, op);
      && DtqOk(r.x, c) && r.item == None && r.x.items == l.x.items && Delivered(l.x, r.x, c) == []
      && Waiting(r.x, c) == Waiting(l.x, c)
    ensures InLine(FlowDo(l, c, op), c, all)
  {
    hide DtqOk, DtqEnabled, DtqDo, InLine, Delivered, Front, Back, Waiting;
    var l' := FlowDo(l, c, op);
    LineIs(l, c, all);
    var front := Front(l.line, |Waiting(l.x, c)|);
    assert l'.line == front + [] + Waiting(l.x, c);
    assert l'.delivered + l'.x.items == l.delivered + l.x.items + [];
    Advance(l, l', c, [], all, false);
  }

  lemma ForceLine(l: Flow, c: DtqConfig, op: DtqOp, all: bool)
    requires DtqOk(l.x, c) && DtqEnabled(l.x, c, op) && op.Fsnd? && !c.prio && InLine(l, c, all)
    ensures var l' := FlowDo(l, c, op); DtqOk(l'.x, c) && InLine(l', c, all && |l.x.items| < c.cnt)
  {
    hide DtqOk, Enabled, ForceStep, InLine, Delivered, Front, Back, Waiting;
    var x := l.x;
    NothingDelivered(x, c);
    DtqStepKeeps(x, c, op);
    if InContext(x.s, op.fromInt) && c.cnt > 0 {
      ForceInLine(x, c, op.item, op.fromInt);
      ForcedLine(l, c, op, all);
    } else {
      SameLine(l, FlowDo(l, c, op), c, all);
      FewerAll(FlowDo(l, c, op), c, all, all && |x.items| < c.cnt);
    }
  }

  lemma FewerAll(l: Flow, c: DtqConfig, all: bool, all': bool)
    requires DtqOk(l.x, c) && InLine(l, c, all) && (all' ==> all)
    ensures InLine(l, c, all')
  {
  }

  /** A forced datum is stored behind the other stored ones, and the oldest may drop out. */
  lemma ForcedLine(l: Flow, c: DtqConfig, op: DtqOp, all: bool)
    requires DtqOk(l.x, c) && DtqEnabled(l.x, c, op) && op.Fsnd? && InLine(l, c, all)
    requires var r := DtqDo(l.x, c, op);
      && DtqOk(r.x, c) && r.out == S.Returns(E_OK) && r.item == None
      && Waiting(r.x, c) == Waiting(l.x, c) && (|l.x.items| >= c.cnt ==> l.x.items != [])
      && Delivered(l.x, r.x, c) + r.x.items == (if |l.x.items| < c.cnt then l.x.items else l.x.items[1..]) + [op.item]
    ensures InLine(FlowDo(l, c, op), c, all && |l.x.items| < c.cnt)
  {
    hide DtqOk, DtqEnabled, DtqDo, InLine, Delivered, Front, Back, Waiting;
    var l' := FlowDo(l, c, op);
    LineIs(l, c, all);
    var items, item := l.x.items, op.item;
    assert l'.delivered + l'.x.items == l.delivered + (Delivered(l.x, l'.x, c) + l'.x.items);
    assert l.delivered + (items + [item]) == l.delivered + items + [item];
    if |items| < c.cnt {
      Advance(l, l', c, [item], all, false);
    } else {
      FullDrops(items, item);
      SubseqAppend(l.delivered, items[1..] + [item], items + [item]);
      Advance(l, l', c, [item], all, true);
    }
  }

  lemma FullDrops(items: seq<Item>, item: Item)
    requires items != []
    ensures Subseq(items[1..] + [item], items + [item])
  {
    SubseqSelf(items[1..] + [item]);
    assert (items + [item])[1..] == items[1..] + [item];
  }

  lemma OtherLine(l: Flow, c: DtqConfig, op: DtqOp, all: bool)
    requires DtqOk(l.x, c) && DtqEnabled(l.x, c, op) && (op.Other? || op.Ini?) && !c.prio && c.sq !in l.x.s.cfg.tpri && InLine(l, c, all)
    ensures var l' := FlowDo(l, c, op); DtqOk(l'.x, c) && InLine(l', c, all && !op.Ini?)
  {
    hide DtqOk, Enabled, Foreign, Do, Delivered, Inv, ResetStep, InLine, Front, Back, Waiting;
    var x := l.x;
    DtqStepKeeps(x, c, op);
    if op.Other? {
      OtherCancels(x, c, op.op);
    } else {
      ResetDrops(x, c);
    }
    LeftLine(l, c, op, all);
  }

  /** Waiting senders leave; what is stored stays, or is dropped by re-initialisation. */
  lemma LeftLine(l: Flow, c: DtqConfig, op: DtqOp, all: bool)
    requires DtqOk(l.x, c) && DtqEnabled(l.x, c, op) && (op.Other? || op.Ini?) && InLine(l, c, all)
    requires var r := DtqDo(l.x, c, op);
      && DtqOk(r.x, c) && r.item == None && Delivered(l.x, r.x, c) == []
      && (r.x.items == l.x.items || (op.Ini? && r.x.items == []))
    ensures InLine(FlowDo(l, c, op), c, all && !op.Ini?)
  {
    hide DtqOk, DtqEnabled, DtqDo, InLine, Delivered, Front, Back, Waiting;
    var l' := FlowDo(l, c, op);
    var r := DtqDo(l.x, c, op);
    LineIs(l, c, all);
    var front := Front(l.line, |Waiting(l.x, c)|);
    assert l'.line == front + [] + Waiting(r.x, c);
    if r.x.items == l.x.items {
      assert l'.delivered + l'.x.items == l.delivered + l.x.items + [];
      Advance(l, l', c, [], all, op.Ini?);
    } else {
      SubseqAppend(l.delivered, [], l.x.items);
      assert l'.delivered + l'.x.items == l.delivered + [];
      assert l.delivered + l.x.items + [] == l.delivered + l.x.items;
      Advance(l, l', c, [], all, true);
    }
  }

  lemma NothingDelivered(x: DtqState, c: DtqConfig)
    requires DtqOk(x, c)
    ensures Delivered(x, x, c) == []
  {
    hide Inv, InPriOrder;
    ObjectQueue(x.s, c.rq);
    if x.s.queue[c.rq] != [] {
      assert x.s.queue[c.rq][0] in x.s.queue[c.rq];
    }
  }

  /** A task that waits to receive changes nothing in the sequence. */
  lemma WaitTakesNothing(x: DtqState, c: DtqConfig, tmout: int)
    requires DtqOk(x, c) && S.MayWait(x.s) && S.TMO_FEVR <= tmout <= x.s.cfg.time.tmax && tmout != S.TMO_POL
    requires x.items == [] && Waiting(x, c) == []
    ensures var y := x.(s := S.WaitOn(x.s, c.rq, tmout).s);
      DtqOk(y, c) && Waiting(y, c) == Waiting(x, c) && Delivered(x, y, c) == []
  {
    hide Inv, S.WaitOn;
    DtqWaitKeeps(x, c, Item(0, 0), tmout, false);
    JoinFacts(x.s, c.rq, tmout);
    ObjectQueue(x.s, c.rq);
    if x.s.queue[c.rq] != [] {
      assert x.s.queue[c.rq][0] in x.s.queue[c.rq];
    }
  }

  lemma ResetDrops(x: DtqState, c: DtqConfig)
    requires DtqOk(x, c)
    ensures var r := ResetStep(x, c);
      && DtqOk(r.x, c) && Delivered(x, r.x, c) == [] && r.item == None
      && (r.x == x || (r.x.items == [] && Waiting(r.x, c) == []))
  {
    hide Inv, InPriOrder, S.Dispatch, S.ReleaseAll;
    ResetKeeps(x, c);
    ObjectQueue(x.s, c.rq);
    if x.s.queue[c.rq] != [] {
      assert x.s.queue[c.rq][0] in x.s.queue[c.rq];
    }
  }

  lemma LineStep(l: Flow, c: DtqConfig, op: DtqOp, all: bool)
    requires DtqOk(l.x, c) && DtqEnabled(l.x, c, op) && !c.prio && c.sq !in l.x.s.cfg.tpri && InLine(l, c, all)
    ensures var l' := FlowDo(l, c, op); DtqOk(l'.x, c) && InLine(l', c, all && DropsNothing(l.x, c, op))
  {
    hide DtqOk, FlowDo, InLine;
    match op
    case Other(_) => OtherLine(l, c, op, all);
    case Ini => OtherLine(l, c, op, all);
    case Tsnd(_, _) => SendLine(l, c, op, all);
    case Psnd(_, _) => SendLine(l, c, op, all);
    case Fsnd(_, _) => ForceLine(l, c, op, all);
    case Trcv(_) => ReceiveLine(l, c, op, all);
    case Prcv => ReceiveLine(l, c, op, all);
  }

  // ----- runs of a FIFO -----

  ghost predicate FlowRun(l: Flow, c: DtqConfig, ops: seq<DtqOp>, l': Flow)
    decreases |ops|
  {
    if ops == [] then l == l'
    else DtqOk(l.x, c) && DtqEnabled(l.x, c, ops[0]) && FlowRun(FlowDo(l, c, ops[0]), c, ops[1..], l')
  }

  /** Does no step of the run drop stored data? */
  ghost predicate NothingDropped(l: Flow, c: DtqConfig, ops: seq<DtqOp>)
    decreases |ops|
  {
    ops == [] ||
    (&& DtqOk(l.x, c) && DtqEnabled(l.x, c, ops[0]) && DropsNothing(l.x, c, ops[0])
     && NothingDropped(FlowDo(l, c, ops[0]), c, ops[1..]))
  }

  /** First in, first out, over any run, forced sends and cancelled sends included: what was
      delivered, followed by what is in the queue, is the line, in its order, with nothing twice
      and nothing new; and nothing is missing unless a step has dropped stored data. */
  lemma FirstInFirstOut(l: Flow, c: DtqConfig, ops: seq<DtqOp>, l': Flow, all: bool)
    requires DtqOk(l.x, c) && !c.prio && c.sq !in l.x.s.cfg.tpri && InLine(l, c, all) && FlowRun(l, c, ops, l')
    ensures DtqOk(l'.x, c) && InLine(l', c, all && NothingDropped(l, c, ops))
    ensures Subseq(l'.delivered + Contents(l'.x, c), l'.line)
    ensures all && NothingDropped(l, c, ops) ==> l'.delivered + Contents(l'.x, c) == l'.line
  {
    hide DtqOk, DtqEnabled, NothingDropped, FlowRun, InLine;
    LineRun(l, c, ops, l', all);
    InOrder(l', c, all && NothingDropped(l, c, ops));
  }

  lemma {:induction false} LineRun(l: Flow, c: DtqConfig, ops: seq<DtqOp>, l': Flow, all: bool)
    requires DtqOk(l.x, c) && !c.prio && c.sq !in l.x.s.cfg.tpri && InLine(l, c, all) && FlowRun(l, c, ops, l')
    ensures DtqOk(l'.x, c) && InLine(l', c, all && NothingDropped(l, c, ops))
    decreases |ops|
  {
    hide DtqOk, DtqEnabled, FlowDo, DropsNothing, InLine;
    if ops != [] {
      var l1 := FlowDo(l, c, ops[0]);
      var all1 := all && DropsNothing(l.x, c, ops[0]);
      LineStep(l, c, ops[0], all);
      FlowIs(l, c, ops[0]);
      LineRun(l1, c, ops[1..], l', all1);
    }
  }

  lemma InOrder(l: Flow, c: DtqConfig, all: bool)
    requires DtqOk(l.x, c) && InLine(l, c, all)
    ensures Subseq(l.delivered + Contents(l.x, c), l.line)
    ensures all ==> l.delivered + Contents(l.x, c) == l.line
  {
    hide DtqOk;
    LineIs(l, c, all);
    var waiting := Waiting(l.x, c);
    SubseqBehind(l.delivered + l.x.items, Front(l.line, |Waiting(l.x, c)|), waiting);
    assert l.delivered + Contents(l.x, c) == l.delivered + l.x.items + waiting;
  }

  // ----- the line and the order of sending -----

  /** Steps after which the order of the line is the order of sending. */
  ghost predicate Orderly(x: DtqState, c: DtqConfig, op: DtqOp)
    requires DtqOk(x, c)
  {
    op.Fsnd? ==> Waiting(x, c) == []
  }

  /** Steps that neither drop stored data nor cancel a send. */
  ghost predicate Lossless(x: DtqState, c: DtqConfig, op: DtqOp)
    requires DtqOk(x, c) && DtqEnabled(x, c, op)
  {
    && DropsNothing(x, c, op)
    && (op.Other? ==> c.sq in DtqDo(x, c, op).x.s.queue && DtqDo(x, c, op).x.s.queue[c.sq] == x.s.queue[c.sq])
  }

  /** Is every step of the run lossless? */
  ghost predicate AllLossless(l: Flow, c: DtqConfig, ops: seq<DtqOp>)
    decreases |ops|
  {
    ops == [] ||
    (&& DtqOk(l.x, c) && DtqEnabled(l.x, c, ops[0]) && Lossless(l.x, c, ops[0])
     && AllLossless(FlowDo(l, c, ops[0]), c, ops[1..]))
  }

  ghost predicate AllOrderly(l: Flow, c: DtqConfig, ops: seq<DtqOp>)
    decreases |ops|
  {
    ops == [] ||
    (&& DtqOk(l.x, c) && DtqEnabled(l.x, c, ops[0]) && Orderly(l.x, c, ops[0])
     && AllOrderly(FlowDo(l, c, ops[0]), c, ops[1..]))
  }

  /** Data only leave the line when their senders no longer wait. */
  lemma LineShrinks(l: Flow, c: DtqConfig, op: DtqOp, all: bool)
    requires DtqOk(l.x, c) && DtqEnabled(l.x, c, op) && (op.Other? || op.Ini?) && !c.prio && c.sq !in l.x.s.cfg.tpri && InLine(l, c, all)
    ensures var l' := FlowDo(l, c, op);
      && l'.accepted == l.accepted && Subseq(l'.line, l.line) && (Lossless(l.x, c, op) ==> l'.line == l.line)
  {
    hide DtqOk, Enabled, Foreign, Do, Inv, InLine, Front, Back, Contents, ResetStep;
    var x := l.x;
    DtqStepKeeps(x, c, op);
    LineIs(l, c, all);
    var r := DtqDo(x, c, op);
    var front, waiting, left := Front(l.line, |Waiting(x, c)|), Waiting(x, c), Waiting(r.x, c);
    if op.Other? {
      OtherCancels(x, c, op.op);
    } else {
      ResetDrops(x, c);
      SubseqSelf(waiting);
    }
    assert Subseq(left, waiting);
    SubseqAppend(front, left, waiting);
  }

  /** As long as no forced send overtakes waiting senders, the line is the order of sending,
      without the cancelled sends; in any case it holds nothing but what was accepted. */
  lemma {:induction false} LineIsAccepted(l: Flow, c: DtqConfig, ops: seq<DtqOp>, l': Flow, all: bool)
    requires DtqOk(l.x, c) && !c.prio && c.sq !in l.x.s.cfg.tpri && InLine(l, c, all) && FlowRun(l, c, ops, l')
    ensures AllOrderly(l, c, ops) && Subseq(l.line, l.accepted) ==> Subseq(l'.line, l'.accepted)
    ensures AllOrderly(l, c, ops) && AllLossless(l, c, ops) && l.line == l.accepted ==> l'.line == l'.accepted
    ensures multiset(l.line) <= multiset(l.accepted) ==> multiset(l'.line) <= multiset(l'.accepted)
    decreases |ops|
  {
    hide DtqOk, DtqEnabled, FlowDo, Lossless, Orderly, DropsNothing, InLine, Subseq;
    if ops != [] {
      var l1 := FlowDo(l, c, ops[0]);
      LineStep(l, c, ops[0], all);
      FlowIs(l, c, ops[0]);
      LineAccepts(l, c, ops[0], all);
      LineIsAccepted(l1, c, ops[1..], l', all && DropsNothing(l.x, c, ops[0]));
    }
  }

  lemma LineAccepts(l: Flow, c: DtqConfig, op: DtqOp, all: bool)
    requires DtqOk(l.x, c) && DtqEnabled(l.x, c, op) && !c.prio && c.sq !in l.x.s.cfg.tpri && InLine(l, c, all)
    ensures LineOfAccepted(l, FlowDo(l, c, op), Orderly(l.x, c, op), Orderly(l.x, c, op) && Lossless(l.x, c, op))
  {
    hide DtqOk, DtqEnabled, DtqDo, Lossless, InLine, Waiting, LineOfAccepted;
    var l' := FlowDo(l, c, op);
    LineIs(l, c, all);
    if op.Other? || op.Ini? {
      LineShrinks(l, c, op, all);
      Shrunk(l, l', Orderly(l.x, c, op), Orderly(l.x, c, op) && Lossless(l.x, c, op));
    } else if Accepted(op, DtqDo(l.x, c, op)) {
      ForcedBag(l.line, |Waiting(l.x, c)|, op.item);
      Grown(l, l', op.item, Orderly(l.x, c, op), Orderly(l.x, c, op) && Lossless(l.x, c, op));
    } else {
      SubseqSelf(l.line);
      Shrunk(l, l', Orderly(l.x, c, op), Orderly(l.x, c, op) && Lossless(l.x, c, op));
    }
  }

  /** What the line keeps from `l` to `l'`: its order, all of it, or just its data. */
  ghost predicate LineOfAccepted(l: Flow, l': Flow, order: bool, exact: bool) {
    && (order && Subseq(l.line, l.accepted) ==> Subseq(l'.line, l'.accepted))
    && (exact && l.line == l.accepted ==> l'.line == l'.accepted)
    && (multiset(l.line) <= multiset(l.accepted) ==> multiset(l'.line) <= multiset(l'.accepted))
  }

  lemma Shrunk(l: Flow, l': Flow, order: bool, exact: bool)
    requires l'.accepted == l.accepted && Subseq(l'.line, l.line) && (exact ==> l'.line == l.line)
    ensures LineOfAccepted(l, l', order, exact)
  {
    SubseqBag(l'.line, l.line);
    if Subseq(l.line, l.accepted) {
      SubseqTrans(l'.line, l.line, l.accepted);
    }
  }

  lemma Grown(l: Flow, l': Flow, item: Item, order: bool, exact: bool)
    requires l'.accepted == l.accepted + [item] && multiset(l'.line) == multiset(l.line) + multiset{item}
    requires order || exact ==> l'.line == l.line + [item]
    ensures LineOfAccepted(l, l', order, exact)
  {
    if Subseq(l.line, l.accepted) {
      SubseqBehind(l.line, l.accepted, [item]);
    }
  }

  /** A datum put into the line anywhere makes it longer by this datum; at the end if nobody waits. */
  lemma ForcedBag(line: seq<Item>, n: nat, item: Item)
    requires n <= |line|
    ensures multiset(Front(line, n) + [item] + Back(line, n)) == multiset(line) + multiset{item}
    ensures n == 0 ==> Front(line, n) + [item] + Back(line, n) == line + [item]
  {
    FrontBack(line, n);
    assert multiset(line) == multiset(Front(line, n)) + multiset(Back(line, n));
  }

  lemma {:induction false} SubseqBag(a: seq<Item>, b: seq<Item>)
    requires Subseq(a, b)
    ensures multiset(a) <= multiset(b)
    decreases |b|
  {
    if b != [] {
      assert b == [b[0]] + b[1..];
      if a != [] && a[0] == b[0] && Subseq(a[1..], b[1..]) {
        assert a == [a[0]] + a[1..];
        SubseqBag(a[1..], b[1..]);
      } else {
        SubseqBag(a, b[1..]);
      }
    }
  }

  /** So without forced sends ahead of waiting senders data are delivered in the order in which
      they were accepted, and nothing is lost unless it is dropped or cancelled. */
  lemma SendingOrder(l: Flow, c: DtqConfig, ops: seq<DtqOp>, l': Flow)
    requires DtqOk(l.x, c) && !c.prio && c.sq !in l.x.s.cfg.tpri && FlowRun(l, c, ops, l') && AllOrderly(l, c, ops)
    requires l.accepted == l.line == l.delivered == [] && l.x.items == [] && Waiting(l.x, c) == []
    ensures DtqOk(l'.x, c) && Subseq(l'.delivered + Contents(l'.x, c), l'.accepted)
    ensures AllLossless(l, c, ops) ==> l'.delivered + Contents(l'.x, c) == l'.accepted
  {
    hide DtqOk, FlowRun, AllOrderly, AllLossless, NothingDropped, Contents;
    EmptyInLine(l, c);
    FirstInFirstOut(l, c, ops, l', true);
    LineIsAccepted(l, c, ops, l', true);
    if AllLossless(l, c, ops) {
      LosslessDropsNothing(l, c, ops);
    }
    SubseqTrans(l'.delivered + Contents(l'.x, c), l'.line, l'.accepted);
  }

  /** A data queue just initialised. */
  lemma EmptyInLine(l: Flow, c: DtqConfig)
    requires DtqOk(l.x, c) && l.line == l.delivered == [] && l.x.items == [] && Waiting(l.x, c) == []
    ensures InLine(l, c, true)
  {
    hide DtqOk;
  }

  lemma {:induction false} LosslessDropsNothing(l: Flow, c: DtqConfig, ops: seq<DtqOp>)
    requires AllLossless(l, c, ops)
    ensures NothingDropped(l, c, ops)
    decreases |ops|
  {
    hide DtqOk, DtqEnabled, FlowDo, DtqDo;
    if ops != [] {
      LosslessDropsNothing(FlowDo(l, c, ops[0]), c, ops[1..]);
    }
  }

  lemma FlowIs(l: Flow, c: DtqConfig, op: DtqOp)
    requires DtqOk(l.x, c) && DtqEnabled(l.x, c, op)
    ensures DtqOk(FlowDo(l, c, op).x, c) && FlowDo(l, c, op).x.s.cfg == l.x.s.cfg
  {
    hide DtqOk, DtqDo, LineDo;
    DtqStepKeeps(l.x, c, op);
    CfgKept(l.x, c, op);
  }

  lemma CfgKept(x: DtqState, c: DtqConfig, op: DtqOp)
    requires DtqOk(x, c) && DtqEnabled(x, c, op)
    ensures DtqDo(x, c, op).x.s.cfg == x.s.cfg
  {
    hide Inv, ShapeOk, Enabled, Do, Foreign, S.WaitOn, HandOver, InPriOrder, InsertPri, S.ReleaseAll, S.Dispatch;
    match op
    case Other(op) => OtherKeeps(x, c, op);
    case Ini => ResetCfg(x, c);
    case Tsnd(_, tmout) => ServedCfg(x, c, false, tmout);
    case Psnd(_, fromInt) => ServedCfg(x, c, fromInt, S.TMO_POL);
    case Fsnd(_, fromInt) => ServedCfg(x, c, fromInt, S.TMO_POL);
    case Trcv(tmout) => ServedCfg(x, c, false, tmout);
    case Prcv => ServedCfg(x, c, false, S.TMO_POL);
  }

  lemma ResetCfg(x: DtqState, c: DtqConfig)
    requires DtqOk(x, c)
    ensures ResetStep(x, c).x.s.cfg == x.s.cfg
  {
    hide CoreOk, DispatchOk, S.ReleaseAll, Sched, InPriOrder;
    if S.InTask(x.s) {
      ResetFacts(x, c);
      FlushFacts(S.ReleaseAll(x.s, x.s.queue[c.sq], E_DLT), c.rq, E_DLT);
    }
  }

  lemma ServedCfg(x: DtqState, c: DtqConfig, fromInt: bool, tmout: int)
    requires DtqOk(x, c)
    ensures InContext(x.s, fromInt) && x.s.queue[c.rq] != [] ==> HandOver(x.s, c.rq, fromInt).cfg == x.s.cfg
    ensures S.InTask(x.s) && x.s.queue[c.sq] != [] ==> HandOver(x.s, c.sq, false).cfg == x.s.cfg
    ensures S.MayWait(x.s) && S.TMO_FEVR <= tmout <= x.s.cfg.time.tmax && tmout != S.TMO_POL ==>
      S.WaitOn(x.s, c.sq, tmout).s.cfg == x.s.cfg && S.WaitOn(x.s, c.rq, tmout).s.cfg == x.s.cfg
  {
    hide Inv, HandOver, S.WaitOn, InPriOrder;
    if InContext(x.s, fromInt) && x.s.queue[c.rq] != [] {
      HandOverFacts(x.s, c.rq, fromInt);
    }
    if S.InTask(x.s) && x.s.queue[c.sq] != [] {
      HandOverFacts(x.s, c.sq, false);
    }
    if S.MayWait(x.s) && S.TMO_FEVR <= tmout <= x.s.cfg.time.tmax && tmout != S.TMO_POL {
      JoinFacts(x.s, c.sq, tmout);
      JoinFacts(x.s, c.rq, tmout);
    }
  }
}
