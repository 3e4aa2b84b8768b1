/**
 What holds for every data queue and every priority data queue, in whatever order tasks
 wait: nothing is delivered that was not sent, nothing twice, and nothing gets lost.
 */
module DataBags {
  import opened Common
  import opened KernelState
  import opened KernelRuns
  import opened WaitSteps
  import opened ObjectSteps
  import opened DataQueues
  import opened DataQueueRuns
  import opened DataFlows
  import S = KernelSpec

  lemma {:induction false} InsertPriBag(items: seq<Item>, x: Item)
    ensures multiset(InsertPri(items, x)) == multiset(items) + multiset{x}
  {
    if items != [] && items[0].pri <= x.pri {
      InsertPriBag(items[1..], x);
      assert items == [items[0]] + items[1..];
    }
  }

  lemma InsertBag(c: DtqConfig, items: seq<Item>, x: Item)
    ensures multiset(Insert(c, items, x)) == multiset(items) + multiset{x}
  {
    if c.prio {
      InsertPriBag(items, x);
    }
  }

  /** One task less brings one datum less. */
  lemma {:induction false} DataRemove(q: seq<TaskId>, t: TaskId, sdata: map<TaskId, Item>)
    requires t in q && forall x :: x in q ==> x in sdata
    ensures forall x :: x in Remove(q, t) ==> x in sdata
    ensures multiset(Data(q, sdata)) == multiset(Data(Remove(q, t), sdata)) + multiset{sdata[t]}
  {
    assert q[0] in q;
    assert forall x :: x in q[1..] ==> x in q;
    if q[0] != t {
      DataRemove(q[1..], t, sdata);
      var r := Remove(q[1..], t);
      assert forall x :: x in [q[0]] + r ==> x == q[0] || x in r;
      assert ([q[0]] + r)[1..] == r;
    }
  }

  /** Fewer tasks bring no more data, whatever their order. */
  lemma {:induction false} DataBag(a: seq<TaskId>, b: seq<TaskId>, sdata: map<TaskId, Item>)
    requires NoDup(a) && NoDup(b) && (forall x :: x in a ==> x in b) && forall x :: x in b ==> x in sdata
    ensures forall x :: x in a ==> x in sdata
    ensures multiset(Data(a, sdata)) <= multiset(Data(b, sdata))
    ensures (forall x :: x in b ==> x in a) ==> multiset(Data(a, sdata)) == multiset(Data(b, sdata))
    decreases |a|
  {
    if a == [] {
      if b != [] {
        assert b[0] in b;
      }
    } else {
      var t := a[0];
      assert t in a;
      RemoveMembers(b, t);
      DataRemove(b, t, sdata);
      assert forall x :: x in a <==> x == t || x in a[1..];
      assert forall i, j :: 0 <= i < j < |a[1..]| ==> a[1..][i] != a[1..][j];
      assert t !in a[1..];
      DataBag(a[1..], Remove(b, t), sdata);
    }
  }

  /** Everything the queue holds. */
  ghost function Holding(x: DtqState, c: DtqConfig): multiset<Item>
    requires DtqOk(x, c)
  {
    multiset(x.items) + multiset(Data(x.s.queue[c.sq], x.sdata))
  }

  /** What a send does to the items held. */
  lemma SendHolding(x: DtqState, c: DtqConfig, item: Item, fromInt: bool)
    requires DtqOk(x, c) && InContext(x.s, fromInt)
    requires SendStep(x, c, item, fromInt).Some? ==> DtqOk(SendStep(x, c, item, fromInt).value, c)
    ensures match SendStep(x, c, item, fromInt)
      case Some(y) => Holding(y, c) == if x.s.queue[c.rq] != [] then Holding(x, c) else Holding(x, c) + multiset{item}
      case None => x.s.queue[c.rq] == [] && |x.items| == c.cnt
  {
    hide Inv, HandOver, InPriOrder, Insert, Data;
    InsertBag(c, x.items, item);
    if x.s.queue[c.rq] != [] {
      ServeKeeps(x.s, c, c.rq, fromInt);
    }
  }

  lemma SendBag(x: DtqState, c: DtqConfig, item: Item, fromInt: bool)
    requires DtqOk(x, c) && InContext(x.s, fromInt)
    ensures match SendStep(x, c, item, fromInt)
      case Some(y) => DtqOk(y, c) &&
        if x.s.queue[c.rq] != []
        then Holding(y, c) == Holding(x, c) && Delivered(x, y, c) == [item]
        else Holding(y, c) == Holding(x, c) + multiset{item} && Delivered(x, y, c) == []
      case None => x.s.queue[c.rq] == [] && |x.items| == c.cnt
  {
    hide Inv, HandOver, InPriOrder, Insert, Holding;
    SendKeeps(x, c, item, fromInt);
    SendHolding(x, c, item, fromInt);
    if x.s.queue[c.rq] != [] {
      ServeKeeps(x.s, c, c.rq, fromInt);
    }
  }

  lemma HeadBag(items: seq<Item>)
    requires items != []
    ensures multiset(items) == multiset{items[0]} + multiset(items[1..])
  {
    assert items == [items[0]] + items[1..];
  }

  /** What a forced send does to the items held. */
  lemma ForceHolding(x: DtqState, c: DtqConfig, item: Item, fromInt: bool)
    requires DtqOk(x, c) && InContext(x.s, fromInt) && c.cnt > 0 && !c.prio && DtqOk(ForceStep(x, c, item, fromInt), c)
    ensures var y := ForceStep(x, c, item, fromInt);
      if x.s.queue[c.rq] != []
      then Holding(y, c) == Holding(x, c)
      else Holding(y, c) <= Holding(x, c) + multiset{item}
           && (|x.items| < c.cnt ==> Holding(y, c) == Holding(x, c) + multiset{item})
  {
    hide Inv, HandOver, Data, InPriOrder;
    if x.s.queue[c.rq] != [] {
      ServeKeeps(x.s, c, c.rq, fromInt);
    } else if x.items != [] {
      HeadBag(x.items);
    }
  }

  lemma ForceBag(x: DtqState, c: DtqConfig, item: Item, fromInt: bool)
    requires DtqOk(x, c) && InContext(x.s, fromInt) && c.cnt > 0 && !c.prio
    ensures var y := ForceStep(x, c, item, fromInt);
      && DtqOk(y, c)
      && (if x.s.queue[c.rq] != []
          then Holding(y, c) == Holding(x, c) && Delivered(x, y, c) == [item]
          else Delivered(x, y, c) == [] && Holding(y, c) <= Holding(x, c) + multiset{item}
               && (|x.items| < c.cnt ==> Holding(y, c) == Holding(x, c) + multiset{item}))
  {
    hide Inv, HandOver, Data, InPriOrder, Holding;
    ForceKeeps(x, c, item, fromInt);
    ForceHolding(x, c, item, fromInt);
    if x.s.queue[c.rq] != [] {
      ServeKeeps(x.s, c, c.rq, fromInt);
    }
  }

  lemma ReceiveBag(x: DtqState, c: DtqConfig)
    requires DtqOk(x, c) && S.InTask(x.s)
    ensures match ReceiveStep(x, c)
      case Some(r) => DtqOk(r.0, c) && Holding(x, c) == multiset{r.1} + Holding(r.0, c) && Delivered(x, r.0, c) == []
      case None => x.items == [] && x.s.queue[c.sq] == []
  {
    hide Inv, HandOver, InPriOrder, Insert;
    ReceiveKeeps(x, c);
    if x.items != [] {
      HeadBag(x.items);
    }
    if x.s.queue[c.sq] != [] {
      ServeKeeps(x.s, c, c.sq, false);
      var t := x.s.queue[c.sq][0];
      assert t in x.s.queue[c.sq];
      DataHead(x.s.queue[c.sq], x.sdata);
      if x.items != [] {
        InsertBag(c, x.items[1..], x.sdata[t]);
      }
    }
  }

  lemma DataHead(q: seq<TaskId>, sdata: map<TaskId, Item>)
    requires q != [] && forall x :: x in q ==> x in sdata
    ensures (forall x :: x in q[1..] ==> x in sdata) && q[0] in sdata
    ensures multiset(Data(q, sdata)) == multiset{sdata[q[0]]} + multiset(Data(q[1..], sdata))
  {
    assert q[0] in q;
  }

  lemma WaitBag(x: DtqState, c: DtqConfig, item: Item, tmout: int)
    requires DtqOk(x, c) && S.MayWait(x.s) && S.TMO_FEVR <= tmout <= x.s.cfg.time.tmax && tmout != S.TMO_POL
    requires x.s.queue[c.rq] == [] && |x.items| == c.cnt
    ensures var y := x.(s := S.WaitOn(x.s, c.sq, tmout).s, sdata := x.sdata[x.s.runtsk.value := item]);
      DtqOk(y, c) && Holding(y, c) == Holding(x, c) + multiset{item} && Delivered(x, y, c) == []
  {
    hide Inv, S.WaitOn, InPriOrder, Data;
    DtqWaitKeeps(x, c, item, tmout, true);
    JoinFacts(x.s, c.sq, tmout);
    var t := x.s.runtsk.value;
    var s' := S.WaitOn(x.s, c.sq, tmout).s;
    QueueParts(x.s, c);
    QueueParts(s', c);
    JoinBag(x.s.queue[c.sq], s'.queue[c.sq], t, x.sdata, item);
  }

  /** One task more brings one datum more, wherever it is in the queue. */
  lemma JoinBag(q: seq<TaskId>, q': seq<TaskId>, t: TaskId, sdata: map<TaskId, Item>, item: Item)
    requires NoDup(q) && NoDup(q') && t !in q && (forall x :: x in q ==> x in sdata) && forall x :: x in q' <==> x in q || x == t
    ensures multiset(Data(q', sdata[t := item])) == multiset(Data(q, sdata)) + multiset{item}
  {
    NoDupAppend(q, t);
    DataAppend(q, t, sdata, item);
    assert forall z :: z in q + [t] <==> z in q || z == t;
    DataBag(q', q + [t], sdata[t := item]);
  }

  lemma OtherBag(x: DtqState, c: DtqConfig, op: Op)
    requires DtqOk(x, c) && Enabled(x.s, op) && Foreign(x.s, op, c.sq) && Foreign(x.s, op, c.rq)
    ensures ShapeOk(x.s)
    ensures var y := x.(s := Do(x.s, op));
      DtqOk(y, c) && Holding(y, c) <= Holding(x, c) && Delivered(x, y, c) == []
      && (y.s.queue[c.sq] == x.s.queue[c.sq] ==> Holding(y, c) == Holding(x, c))
  {
    hide Inv, ShapeOk, Enabled, Do, Foreign, InPriOrder;
    OtherKeeps(x, c, op);
    var s' := Do(x.s, op);
    QueueParts(x.s, c);
    QueueParts(s', c);
    DataBag(s'.queue[c.sq], x.s.queue[c.sq], x.sdata);
    ObjectQueue(x.s, c.rq);
    if x.s.queue[c.rq] != [] {
      assert x.s.queue[c.rq][0] in x.s.queue[c.rq];
    }
  }

  /** What one step does to the bag: `got` comes out, `put` goes in. */
  ghost predicate BagMoves(l: Flow, l': Flow, c: DtqConfig, lossless: bool) {
    && DtqOk(l.x, c) && DtqOk(l'.x, c)
    && exists put: seq<Item>, got: seq<Item> ::
      && l'.accepted == l.accepted + put && l'.delivered == l.delivered + got
      && multiset(got) + Holding(l'.x, c) <= Holding(l.x, c) + multiset(put)
      && (lossless ==> multiset(got) + Holding(l'.x, c) == Holding(l.x, c) + multiset(put))
  }

  lemma BagMovesBy(l: Flow, l': Flow, c: DtqConfig, lossless: bool, put: seq<Item>, got: seq<Item>)
    requires DtqOk(l.x, c) && DtqOk(l'.x, c)
    requires l'.accepted == l.accepted + put && l'.delivered == l.delivered + got
    requires multiset(got) + Holding(l'.x, c) <= Holding(l.x, c) + multiset(put)
    requires lossless ==> multiset(got) + Holding(l'.x, c) == Holding(l.x, c) + multiset(put)
    ensures BagMoves(l, l', c, lossless)
  {
  }

  lemma SendBagMoves(l: Flow, c: DtqConfig, op: DtqOp)
    requires DtqOk(l.x, c) && DtqEnabled(l.x, c, op) && (op.Tsnd? || op.Psnd?)
    ensures BagMoves(l, FlowDo(l, c, op), c, true)
  {
    hide DtqOk, Enabled, S.WaitOn, SendStep, Holding, BagMoves, Delivered;
    var x := l.x;
    var l' := FlowDo(l, c, op);
    DtqStepKeeps(x, c, op);
    NothingDelivered(x, c);
    SentBag(x, c, op);
    if l'.accepted == l.accepted {
      BagMovesBy(l, l', c, true, [], []);
    } else if l'.delivered == l.delivered {
      BagMovesBy(l, l', c, true, [op.item], []);
    } else {
      BagMovesBy(l, l', c, true, [op.item], [op.item]);
    }
  }

  /** What any send does to the bag. */
  lemma SentBag(x: DtqState, c: DtqConfig, op: DtqOp)
    requires DtqOk(x, c) && DtqEnabled(x, c, op) && (op.Tsnd? || op.Psnd?)
    ensures var r := DtqDo(x, c, op);
      && DtqOk(r.x, c) && r.item == None
      && if r.out == S.Returns(E_OK) || r.out == S.Blocks
         then (Delivered(x, r.x, c) == [op.item] && Holding(r.x, c) == Holding(x, c))
              || (Delivered(x, r.x, c) == [] && Holding(r.x, c) == Holding(x, c) + multiset{op.item})
         else r.x == x
  {
    hide DtqOk, Enabled, S.WaitOn, SendStep, Holding, Delivered;
    if op.Psnd? && InContext(x.s, op.fromInt) {
      SendBag(x, c, op.item, op.fromInt);
    }
    if op.Tsnd? && S.MayWait(x.s) {
      SendBag(x, c, op.item, false);
      if SendStep(x, c, op.item, false).None? && S.TMO_FEVR <= op.tmout && op.tmout != S.TMO_POL {
        WaitBag(x, c, op.item, op.tmout);
      }
    }
  }

  lemma ReceiveBagMoves(l: Flow, c: DtqConfig, op: DtqOp)
    requires DtqOk(l.x, c) && DtqEnabled(l.x, c, op) && (op.Trcv? || op.Prcv?)
    ensures BagMoves(l, FlowDo(l, c, op), c, true)
  {
    hide DtqOk, Enabled, S.WaitOn, ReceiveStep, Holding, BagMoves, Delivered;
    var x := l.x;
    DtqStepKeeps(x, c, op);
    NothingDelivered(x, c);
    if S.InTask(x.s) {
      ReceiveBag(x, c);
      if op.Trcv? && S.MayWait(x.s) && ReceiveStep(x, c).None? && S.TMO_FEVR <= op.tmout && op.tmout != S.TMO_POL {
        WaitTakesNothingBag(x, c, op.tmout);
      }
    }
    var r := DtqDo(x, c, op);
    BagMovesBy(l, FlowDo(l, c, op), c, true, [], if r.item.Some? then [r.item.value] else []);
  }

  lemma OtherBagMoves(l: Flow, c: DtqConfig, op: DtqOp)
    requires DtqOk(l.x, c) && DtqEnabled(l.x, c, op) && (op.Other? || op.Ini? || op.Fsnd?)
    ensures BagMoves(l, FlowDo(l, c, op), c, Lossless(l.x, c, op))
  {
    hide DtqOk, Enabled, Foreign, Do, BagMoves, Delivered, Holding, ResetStep, ForceStep;
    var x := l.x;
    var l' := FlowDo(l, c, op);
    DtqStepKeeps(x, c, op);
    NothingDelivered(x, c);
    match op
    case Other(op) =>
      OtherBag(x, c, op);
      BagMovesBy(l, l', c, Lossless(x, c, Other(op)), [], []);
    case Ini =>
      ResetBag(x, c);
      BagMovesBy(l, l', c, false, [], []);
    case Fsnd(item, fromInt) =>
      ForceBagMoves(l, c, item, fromInt);
  }

  lemma ForceBagMoves(l: Flow, c: DtqConfig, item: Item, fromInt: bool)
    requires DtqOk(l.x, c) && !c.prio
    ensures BagMoves(l, FlowDo(l, c, Fsnd(item, fromInt)), c, |l.x.items| < c.cnt)
  {
    hide DtqOk, BagMoves, Delivered, Holding, ForceStep, FlowDo;
    var x := l.x;
    var l' := FlowDo(l, c, Fsnd(item, fromInt));
    ForceFlow(l, c, item, fromInt);
    if !InContext(x.s, fromInt) || c.cnt == 0 {
      BagMovesBy(l, l', c, |x.items| < c.cnt, [], []);
    } else {
      ForceBag(x, c, item, fromInt);
      BagMovesBy(l, l', c, |x.items| < c.cnt, [item], Delivered(x, l'.x, c));
    }
  }

  lemma ForceFlow(l: Flow, c: DtqConfig, item: Item, fromInt: bool)
    requires DtqOk(l.x, c) && !c.prio
    ensures var l' := FlowDo(l, c, Fsnd(item, fromInt));
      if !InContext(l.x.s, fromInt) || c.cnt == 0 then l'.x == l.x && l'.accepted == l.accepted && l'.delivered == l.delivered
      else
        && l'.x == ForceStep(l.x, c, item, fromInt) && l'.accepted == l.accepted + [item]
        && l'.delivered == l.delivered + Delivered(l.x, l'.x, c)
  {
    hide DtqOk, Delivered, ForceStep, LineDo;
    NothingDelivered(l.x, c);
  }

  lemma BagStep(l: Flow, c: DtqConfig, op: DtqOp)
    requires DtqOk(l.x, c) && DtqEnabled(l.x, c, op)
    ensures BagMoves(l, FlowDo(l, c, op), c, Lossless(l.x, c, op))
  {
    hide DtqOk, FlowDo, Holding;
    match op
    case Tsnd(_, _) => SendBagMoves(l, c, op);
    case Psnd(_, _) => SendBagMoves(l, c, op);
    case Trcv(_) => ReceiveBagMoves(l, c, op);
    case Prcv => ReceiveBagMoves(l, c, op);
    case _ => OtherBagMoves(l, c, op);
  }

  /** The bag stays balanced. */
  lemma BagKeeps(l: Flow, l': Flow, c: DtqConfig, lossless: bool)
    requires BagMoves(l, l', c, lossless)
    ensures multiset(l.delivered) + Holding(l.x, c) <= multiset(l.accepted) ==> multiset(l'.delivered) + Holding(l'.x, c) <= multiset(l'.accepted)
    ensures lossless && multiset(l.delivered) + Holding(l.x, c) == multiset(l.accepted) ==>
      multiset(l'.delivered) + Holding(l'.x, c) == multiset(l'.accepted)
  {
    hide DtqOk, Holding;
    var put: seq<Item>, got: seq<Item> :|
      && l'.accepted == l.accepted + put && l'.delivered == l.delivered + got
      && multiset(got) + Holding(l'.x, c) <= Holding(l.x, c) + multiset(put)
      && (lossless ==> multiset(got) + Holding(l'.x, c) == Holding(l.x, c) + multiset(put));
    BagAdd(multiset(l.delivered), Holding(l.x, c), multiset(l.accepted), multiset(put), multiset(got), Holding(l'.x, c));
  }

  lemma BagAdd(d: multiset<Item>, h: multiset<Item>, a: multiset<Item>, put: multiset<Item>, got: multiset<Item>, h': multiset<Item>)
    requires got + h' <= h + put
    ensures d + h <= a ==> (d + got) + h' <= a + put
    ensures got + h' == h + put && d + h == a ==> (d + got) + h' == a + put
  {
    assert (d + got) + h' == d + (got + h');
    assert d + (h + put) == (d + h) + put;
  }

  lemma WaitTakesNothingBag(x: DtqState, c: DtqConfig, tmout: int)
    requires DtqOk(x, c) && S.MayWait(x.s) && S.TMO_FEVR <= tmout <= x.s.cfg.time.tmax && tmout != S.TMO_POL
    requires x.items == [] && x.s.queue[c.sq] == []
    ensures var y := x.(s := S.WaitOn(x.s, c.rq, tmout).s);
      DtqOk(y, c) && Holding(y, c) == Holding(x, c) && Delivered(x, y, c) == []
  {
    hide Inv, S.WaitOn, InPriOrder, Delivered;
    WaitTakesNothing(x, c, tmout);
    JoinFacts(x.s, c.rq, tmout);
  }

  lemma ResetBag(x: DtqState, c: DtqConfig)
    requires DtqOk(x, c)
    ensures var r := ResetStep(x, c);
      DtqOk(r.x, c) && Delivered(x, r.x, c) == [] && r.item == None && Holding(r.x, c) <= Holding(x, c)
  {
    hide Inv, InPriOrder, S.Dispatch, S.ReleaseAll;
    ResetKeeps(x, c);
    ObjectQueue(x.s, c.rq);
    if x.s.queue[c.rq] != [] {
      assert x.s.queue[c.rq][0] in x.s.queue[c.rq];
    }
  }

  /** Over any run of a data queue or priority data queue: what was delivered and what is still
      held was accepted, each datum as often; and all of it is there unless a step has lost it.
      A priority data queue is in the order of priorities all the time. */
  lemma {:induction false} NothingInventedNothingLost(l: Flow, c: DtqConfig, ops: seq<DtqOp>, l': Flow)
    requires DtqOk(l.x, c) && FlowRun(l, c, ops, l')
    requires multiset(l.delivered) + Holding(l.x, c) <= multiset(l.accepted)
    ensures DtqOk(l'.x, c) && multiset(l'.delivered) + Holding(l'.x, c) <= multiset(l'.accepted)
    ensures AllLossless(l, c, ops) && multiset(l.delivered) + Holding(l.x, c) == multiset(l.accepted) ==>
      multiset(l'.delivered) + Holding(l'.x, c) == multiset(l'.accepted)
    decreases |ops|
  {
    hide DtqOk, DtqEnabled, FlowDo, Holding, Lossless, BagMoves;
    if ops != [] {
      var l1 := FlowDo(l, c, ops[0]);
      BagStep(l, c, ops[0]);
      FlowIs(l, c, ops[0]);
      BagKeeps(l, l1, c, Lossless(l.x, c, ops[0]));
      NothingInventedNothingLost(l1, c, ops[1..], l');
    }
  }

  // ----- what a receiver gets -----

  /** From a priority data queue that stores something, the receiver gets the datum that
      arrived first of those with the best priority. */
  lemma BestIsReceived(x: DtqState, c: DtqConfig)
    requires DtqOk(x, c) && c.prio && x.items != []
    ensures ReceiveStep(x, c).Some?
    ensures var item := ReceiveStep(x, c).value.1;
      && (forall i :: 0 <= i < |x.items| ==> item.pri <= x.items[i].pri)
      && OfPri(x.items, item.pri)[..1] == [item]
  {
    hide Inv, HandOver;
    EarliestOfBest(x.items);
  }

  /** With capacity 0 a datum goes from a sender to a receiver or stays with a waiting sender. */
  lemma Rendezvous(x: DtqState, c: DtqConfig, item: Item, fromInt: bool)
    requires DtqOk(x, c) && c.cnt == 0
    ensures x.items == []
    ensures SendStep(x, c, item, fromInt).Some? <==> x.s.queue[c.rq] != []
    ensures ReceiveStep(x, c).Some? <==> x.s.queue[c.sq] != []
    ensures x.s.queue[c.sq] != [] ==>
      x.s.queue[c.sq][0] in x.sdata && ReceiveStep(x, c).value.1 == x.sdata[x.s.queue[c.sq][0]]
  {
    hide Inv, HandOver;
    if x.s.queue[c.sq] != [] {
      assert x.s.queue[c.sq][0] in x.s.queue[c.sq];
    }
  }
}
