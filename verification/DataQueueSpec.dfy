/**
 dataqueue.c and pridataq.c as one: a bounded buffer, tasks that wait to send because it is
 full, and tasks that wait to receive because it is empty. A data queue is a FIFO; a
 priority data queue keeps its data in the order of their priorities.
 */
module DataQueues {
  import opened Common
  import opened KernelState
  import opened ObjectSteps
  import S = KernelSpec

  /** A data word; `pri` is its priority in a priority data queue. */
  datatype Item = Item(data: int, pri: int)

  /** What the configurator generates: the send and the receive wait queue, the capacity,
      whether data have priorities, and the lowest of them. */
  datatype DtqConfig = DtqConfig(sq: QName, rq: QName, cnt: nat, prio: bool, maxdpri: int)

  const TMIN_DPRI := 1

  /** The kernel with the stored data, and the data that waiting tasks want to send or have
      received (WINFO_DTQ, WINFO_PDQ). */
  datatype DtqState = DtqState(s: State, items: seq<Item>, sdata: map<TaskId, Item>, rdata: map<TaskId, Item>)

  /** Behind all data of the same or better priority. */
  function InsertPri(items: seq<Item>, x: Item): seq<Item> {
    if items == [] then [x]
    else if items[0].pri > x.pri then [x] + items
    else [items[0]] + InsertPri(items[1..], x)
  }

  function Insert(c: DtqConfig, items: seq<Item>, x: Item): (r: seq<Item>)
    ensures |r| == |items| + 1
  {
    if c.prio then
      InsertPriCount(items, x);
      InsertPri(items, x)
    else items + [x]
  }

  ghost predicate InPriOrder(items: seq<Item>) {
    forall i, j :: 0 <= i < j < |items| ==> items[i].pri <= items[j].pri
  }

  /** The data of one priority. */
  function OfPri(items: seq<Item>, p: int): seq<Item> {
    if items == [] then []
    else (if items[0].pri == p then [items[0]] else []) + OfPri(items[1..], p)
  }

  lemma {:induction false} InsertPriCount(items: seq<Item>, x: Item)
    ensures |InsertPri(items, x)| == |items| + 1
  {
    if items != [] && items[0].pri <= x.pri {
      InsertPriCount(items[1..], x);
    }
  }

  lemma {:induction false} InsertPriMembers(items: seq<Item>, x: Item)
    ensures forall y :: y in InsertPri(items, x) <==> y in items || y == x
  {
    if items != [] && items[0].pri <= x.pri {
      InsertPriMembers(items[1..], x);
      assert items == [items[0]] + items[1..];
    }
  }

  lemma {:induction false} InsertPriOfPri(items: seq<Item>, x: Item, p: int)
    requires InPriOrder(items)
    ensures OfPri(InsertPri(items, x), p) == OfPri(items, p) + if x.pri == p then [x] else []
  {
    if items == [] {
    } else if items[0].pri > x.pri {
      NoneOfPri(items, x.pri);
      assert ([x] + items)[1..] == items;
    } else {
      InsertPriOfPri(items[1..], x, p);
      var rest := InsertPri(items[1..], x);
      assert ([items[0]] + rest)[1..] == rest;
    }
  }

  /** Insertion keeps the order of priorities, and for each priority the order of arrival. */
  lemma {:induction false} InsertPriOrder(items: seq<Item>, x: Item, p: int)
    requires InPriOrder(items)
    ensures InPriOrder(InsertPri(items, x))
    ensures OfPri(InsertPri(items, x), p) == OfPri(items, p) + if x.pri == p then [x] else []
  {
    hide OfPri;
    InsertPriOfPri(items, x, p);
    if items != [] && items[0].pri <= x.pri {
      InsertPriOrder(items[1..], x, p);
      InsertPriMembers(items[1..], x);
      var rest := InsertPri(items[1..], x);
      forall j | 0 <= j < |rest|
        ensures items[0].pri <= rest[j].pri
      {
        assert rest[j] in rest;
      }
    }
  }

  lemma {:induction false} NoneOfPri(items: seq<Item>, p: int)
    requires forall i :: 0 <= i < |items| ==> items[i].pri > p
    ensures OfPri(items, p) == []
  {
    if items != [] {
      NoneOfPri(items[1..], p);
    }
  }

  /** The first datum is the one that arrived first of those with the best priority. */
  lemma EarliestOfBest(items: seq<Item>)
    requires InPriOrder(items) && items != []
    ensures forall i :: 0 <= i < |items| ==> items[0].pri <= items[i].pri
    ensures OfPri(items, items[0].pri) == [items[0]] + OfPri(items[1..], items[0].pri)
  {
  }

  // ----- one state -----

  /** Tasks wait to send only while the buffer is full, to receive only while it is empty, and
      never both. */
  ghost predicate DtqOk(x: DtqState, c: DtqConfig) {
    && Inv(x.s) && x.s.cfg.time.Ok()
    && c.sq in x.s.cfg.queues && c.sq in x.s.queue && c.sq.Wait?
    && c.rq in x.s.cfg.queues && c.rq in x.s.queue && c.rq.Wait?
    && c.sq != c.rq && c.rq !in x.s.cfg.tpri
    && S.AllTasks(x.s.queue[c.sq], |x.s.tcb|) && S.AllTasks(x.s.queue[c.rq], |x.s.tcb|)
    && |x.items| <= c.cnt && (c.prio ==> InPriOrder(x.items))
    && (x.s.queue[c.sq] != [] ==> |x.items| == c.cnt)
    && (x.s.queue[c.rq] != [] ==> x.items == [])
    && (x.s.queue[c.sq] == [] || x.s.queue[c.rq] == [])
    && (forall t :: t in x.s.queue[c.sq] ==> t in x.sdata)
  }

  // ----- steps -----

  /** send_data, with the dispatch that follows: did it succeed? */
  ghost function SendStep(x: DtqState, c: DtqConfig, item: Item, fromInt: bool): Option<DtqState>
    requires DtqOk(x, c)
  {
    if x.s.queue[c.rq] != [] then
      Some(x.(s := HandOver(x.s, c.rq, fromInt), rdata := x.rdata[x.s.queue[c.rq][0] := item]))
    else if |x.items| < c.cnt then Some(x.(items := Insert(c, x.items, item)))
    else None
  }

  /** force_send_data: if the buffer is full, the oldest datum is lost. */
  ghost function ForceStep(x: DtqState, c: DtqConfig, item: Item, fromInt: bool): DtqState
    requires DtqOk(x, c) && c.cnt > 0
  {
    if x.s.queue[c.rq] != [] then
      x.(s := HandOver(x.s, c.rq, fromInt), rdata := x.rdata[x.s.queue[c.rq][0] := item])
    else x.(items := (if |x.items| < c.cnt then x.items else x.items[1..]) + [item])
  }

  /** receive_data, with the dispatch that follows. */
  ghost function ReceiveStep(x: DtqState, c: DtqConfig): Option<(DtqState, Item)>
    requires DtqOk(x, c)
  {
    if x.items != [] then
      if x.s.queue[c.sq] != [] then
        Some((x.(s := HandOver(x.s, c.sq, false), items := Insert(c, x.items[1..], x.sdata[x.s.queue[c.sq][0]])), x.items[0]))
      else Some((x.(items := x.items[1..]), x.items[0]))
    else if x.s.queue[c.sq] != [] then
      Some((x.(s := HandOver(x.s, c.sq, false)), x.sdata[x.s.queue[c.sq][0]]))
    else None
  }

  datatype DtqResult = DtqResult(x: DtqState, out: S.Outcome, item: Option<Item>)

  /** May `item` be sent? The range of a datum's priority is checked in a priority data queue. */
  predicate GoodItem(c: DtqConfig, item: Item) {
    c.prio ==> TMIN_DPRI <= item.pri <= c.maxdpri
  }

  /** tsnd_dtq and tsnd_pdq, and snd_dtq and snd_pdq if `tmout` is TMO_FEVR. */
  ghost function TsndStep(x: DtqState, c: DtqConfig, item: Item, tmout: int): DtqResult
    requires DtqOk(x, c)
  {
    if !S.MayWait(x.s) then DtqResult(x, S.Returns(E_CTX), None)
    else if !GoodItem(c, item) || tmout < S.TMO_FEVR then DtqResult(x, S.Returns(E_PAR), None)
    else match SendStep(x, c, item, false)
      case Some(y) => DtqResult(y, S.Returns(E_OK), None)
      case None =>
        if tmout == S.TMO_POL then DtqResult(x, S.Returns(E_TMOUT), None)
        else DtqResult(x.(s := S.WaitOn(x.s, c.sq, tmout).s, sdata := x.sdata[x.s.runtsk.value := item]), S.Blocks, None)
  }

  /** psnd_dtq and psnd_pdq, and the variants for interrupt handlers if `fromInt`. */
  ghost function PsndStep(x: DtqState, c: DtqConfig, item: Item, fromInt: bool): DtqResult
    requires DtqOk(x, c)
  {
    if !InContext(x.s, fromInt) then DtqResult(x, S.Returns(E_CTX), None)
    else if !GoodItem(c, item) then DtqResult(x, S.Returns(E_PAR), None)
    else match SendStep(x, c, item, fromInt)
      case Some(y) => DtqResult(y, S.Returns(E_OK), None)
      case None => DtqResult(x, S.Returns(E_TMOUT), None)
  }

  /** fsnd_dtq, and ifsnd_dtq if `fromInt`. */
  ghost function FsndStep(x: DtqState, c: DtqConfig, item: Item, fromInt: bool): DtqResult
    requires DtqOk(x, c)
  {
    if !InContext(x.s, fromInt) then DtqResult(x, S.Returns(E_CTX), None)
    else if c.cnt == 0 then DtqResult(x, S.Returns(E_ILUSE), None)
    else DtqResult(ForceStep(x, c, item, fromInt), S.Returns(E_OK), None)
  }

  /** trcv_dtq and trcv_pdq, and rcv_dtq and rcv_pdq if `tmout` is TMO_FEVR. */
  ghost function TrcvStep(x: DtqState, c: DtqConfig, tmout: int): DtqResult
    requires DtqOk(x, c)
  {
    if !S.MayWait(x.s) then DtqResult(x, S.Returns(E_CTX), None)
    else if tmout < S.TMO_FEVR then DtqResult(x, S.Returns(E_PAR), None)
    else match ReceiveStep(x, c)
      case Some(r) => DtqResult(r.0, S.Returns(E_OK), Some(r.1))
      case None =>
        if tmout == S.TMO_POL then DtqResult(x, S.Returns(E_TMOUT), None)
        else DtqResult(x.(s := S.WaitOn(x.s, c.rq, tmout).s), S.Blocks, None)
  }

  /** prcv_dtq and prcv_pdq. */
  ghost function PrcvStep(x: DtqState, c: DtqConfig): DtqResult
    requires DtqOk(x, c)
  {
    if !S.InTask(x.s) then DtqResult(x, S.Returns(E_CTX), None)
    else match ReceiveStep(x, c)
      case Some(r) => DtqResult(r.0, S.Returns(E_OK), Some(r.1))
      case None => DtqResult(x, S.Returns(E_TMOUT), None)
  }

  /** ini_dtq and ini_pdq: senders and receivers return with E_DLT. */
  ghost function ResetStep(x: DtqState, c: DtqConfig): DtqResult
    requires DtqOk(x, c)
  {
    if !S.InTask(x.s) then DtqResult(x, S.Returns(E_CTX), None)
    else
      ResetFacts(x, c);
      DtqResult(
        x.(s := S.Dispatch(S.ReleaseAll(S.ReleaseAll(x.s, x.s.queue[c.sq], E_DLT), x.s.queue[c.rq], E_DLT)), items := []),
        S.Returns(E_OK), None)
  }

  lemma ResetFacts(x: DtqState, c: DtqConfig)
    requires DtqOk(x, c)
    ensures var s1 := S.ReleaseAll(x.s, x.s.queue[c.sq], E_DLT);
      && c.rq in s1.queue && s1.queue[c.rq] == x.s.queue[c.rq] && S.AllTasks(x.s.queue[c.rq], |s1.tcb|)
      && CoreOk(s1) && c.sq in s1.queue && s1.queue[c.sq] == [] && s1.cfg == x.s.cfg
  {
    hide CoreOk, DispatchOk, S.ReleaseAll, S.AllTasks, InPriOrder;
    ObjectQueue(x.s, c.sq);
    ObjectQueue(x.s, c.rq);
    FlushFacts(x.s, c.sq, E_DLT);
    SameLength(x.s, S.ReleaseAll(x.s, x.s.queue[c.sq], E_DLT), x.s.queue[c.rq]);
  }

  lemma SameLength(s: State, s': State, ts: seq<TaskId>)
    requires S.AllTasks(ts, |s.tcb|) && |s'.tcb| == |s.tcb|
    ensures S.AllTasks(ts, |s'.tcb|)
  {
  }
}
