/**
 dataqueue.c: the ring buffer and the service calls of one data queue.
 */
module DataQueue {
  import opened Common
  import opened Rings
  import opened KernelState
  import opened ObjectSteps
  import opened DataQueues
  import opened DataQueueRuns
  import opened Kernels
  import opened ObjectCalls
  import opened TaskSync
  import S = KernelSpec

  /** DTQCB, with the memory of its data and the WINFO_DTQ of the tasks. */
  class DataQueue {
    const k: Kernel
    const c: DtqConfig
    const mb: array<Item>
    var count: nat
    var head: nat
    var tail: nat
    var sdata: map<TaskId, Item>
    var rdata: map<TaskId, Item>

    ghost predicate RingOk()
      reads `count, `head, `tail
    {
      && mb.Length == c.cnt && count <= c.cnt
      && (if c.cnt == 0 then head == 0 && tail == 0 else head < c.cnt && tail < c.cnt && tail == Slot(head, count, c.cnt))
    }

    /** The stored data, oldest first. */
    ghost function Items(): seq<Item>
      requires RingOk()
      reads `count, `head, `tail, mb
    {
      RingItems(mb[..], head, count)
    }

    ghost predicate Valid()
      reads this, mb, k, k.tm, k.tm.heap
    {
      RingOk() && k.Rep() && DtqOk(Value(), c) && !c.prio
    }

    ghost function Value(): DtqState
      requires RingOk()
      reads this, mb, k, k.tm
    {
      DtqState(k.View(), Items(), sdata, rdata)
    }

    /** enqueue_data. */
    method EnqueueData(item: Item)
      requires RingOk() && count < c.cnt
      modifies mb, `count, `tail
      ensures RingOk() && Items() == old(Items()) + [item]
    {
      hide RingItems;
      RingPut(mb[..], head, count, item);
      mb[tail] := item;
      count := count + 1;
      tail := tail + 1;
      if tail >= c.cnt {
        tail := 0;
      }
    }

    /** force_enqueue_data: a full ring loses its oldest datum. */
    method ForceEnqueueData(item: Item)
      requires RingOk() && c.cnt > 0
      modifies mb, `count, `head, `tail
      ensures RingOk()
      ensures Items() == (if old(count) < c.cnt then old(Items()) else old(Items())[1..]) + [item]
    {
      hide RingItems;
      if count < c.cnt {
        RingPut(mb[..], head, count, item);
      } else {
        RingReplace(mb[..], head, item);
      }
      mb[tail] := item;
      tail := tail + 1;
      if tail >= c.cnt {
        tail := 0;
      }
      if count < c.cnt {
        count := count + 1;
      } else {
        head := tail;
      }
    }

    /** dequeue_data. */
    method DequeueData() returns (item: Item)
      requires RingOk() && count > 0
      modifies `count, `head
      ensures RingOk() && old(Items()) == [item] + Items()
    {
      hide RingItems;
      RingTake(mb[..], head, count);
      item := mb[head];
      count := count - 1;
      head := head + 1;
      if head >= c.cnt {
        head := 0;
      }
    }

    /** initialize_dataqueue, for one data queue. */
    constructor (k: Kernel, c: DtqConfig)
      requires k.Rep() && !c.prio && DtqOk(DtqState(k.View(), [], map[], map[]), c)
      ensures this.k == k && this.c == c && fresh(mb) && Valid()
      ensures Value() == DtqState(k.View(), [], map[], map[])
    {
      this.k := k;
      this.c := c;
      hide Kernel.Rep, DtqOk;
      mb := new Item[c.cnt](_ => Item(0, 0));
      count, head, tail := 0, 0, 0;
      sdata, rdata := map[], map[];
      new;
      EmptyRing(mb[..]);
    }

    /** send_data, with the dispatch that follows. */
    method SendData(item: Item, fromInt: bool) returns (ok: bool)
      requires Valid() && InContext(k.View(), fromInt)
      modifies mb, `count, `tail, `rdata, k`tcb, k`queue, k`readyPrimap, k`schedtsk, k`runtsk, k`reqflg
      modifies k.tm.heap, k.tm`blocks, k.tm`times, k.tm`lastIndex, k.tm`pending
      ensures RingOk() && k.Rep()
      ensures match SendStep(old(Value()), c, item, fromInt)
        case Some(y) => ok && Value() == y
        case None => !ok && Value() == old(Value())
    {
      hide Kernel.Rep, Inv, HandOver, InPriOrder;
      if k.queue[c.rq] != [] {
        rdata := rdata[k.queue[c.rq][0] := item];
        var _ := CompleteNext(k, c.rq, fromInt);
        return true;
      } else if count < c.cnt {
        EnqueueData(item);
        return true;
      } else {
        return false;
      }
    }

    /** force_send_data, with the dispatch that follows. */
    method ForceSendData(item: Item, fromInt: bool)
      requires Valid() && InContext(k.View(), fromInt) && c.cnt > 0
      modifies mb, `count, `head, `tail, `rdata, k`tcb, k`queue, k`readyPrimap, k`schedtsk, k`runtsk, k`reqflg
      modifies k.tm.heap, k.tm`blocks, k.tm`times, k.tm`lastIndex, k.tm`pending
      ensures RingOk() && k.Rep() && Value() == ForceStep(old(Value()), c, item, fromInt)
    {
      hide Kernel.Rep, Inv, HandOver, InPriOrder;
      if k.queue[c.rq] != [] {
        rdata := rdata[k.queue[c.rq][0] := item];
        var _ := CompleteNext(k, c.rq, fromInt);
      } else {
        ForceEnqueueData(item);
      }
    }

    /** receive_data, with the dispatch that follows. */
    method ReceiveData() returns (r: Option<Item>)
      requires Valid() && S.InTask(k.View())
      modifies mb, `count, `head, `tail, k`tcb, k`queue, k`readyPrimap, k`schedtsk, k`runtsk, k`reqflg
      modifies k.tm.heap, k.tm`blocks, k.tm`times, k.tm`lastIndex, k.tm`pending
      ensures RingOk() && k.Rep()
      ensures match ReceiveStep(old(Value()), c)
        case Some(p) => r == Some(p.1) && Value() == p.0
        case None => r == None && Value() == old(Value())
    {
      hide Kernel.Rep, Inv, HandOver, InPriOrder;
      if count > 0 {
        var item := DequeueData();
        if k.queue[c.sq] != [] {
          assert k.queue[c.sq][0] in k.queue[c.sq];
          EnqueueData(sdata[k.queue[c.sq][0]]);
          var _ := CompleteNext(k, c.sq, false);
        }
        return Some(item);
      } else if k.queue[c.sq] != [] {
        assert k.queue[c.sq][0] in k.queue[c.sq];
        var item := sdata[k.queue[c.sq][0]];
        var _ := CompleteNext(k, c.sq, false);
        return Some(item);
      } else {
        return None;
      }
    }

    /** The running task waits to send `item`. */
    method WaitToSend(item: Item, tmout: int)
      requires RingOk() && k.Rep() && DtqOk(Value(), c) && S.MayWait(k.View())
      requires tmout == S.TMO_FEVR || 0 < tmout <= k.cfg.time.tmax
      modifies `sdata, k`tcb, k`queue, k`readyPrimap, k`schedtsk, k`runtsk
      modifies k.tm.heap, k.tm`blocks, k.tm`times, k.tm`lastIndex, k.tm`pending
      ensures RingOk() && k.Rep() && S.InTask(old(k.View())) && k.cfg.time.Ok() && c.sq.Wait?
      ensures Value() == old(Value()).(s := S.WaitOn(old(k.View()), c.sq, tmout).s, sdata := old(sdata)[old(k.runtsk).value := item])
    {
      hide Kernel.Rep, Inv, DtqOk, S.WaitOn, RingItems, DataQueue.RingOk;
      InvOf(Value(), c);
      sdata := sdata[k.runtsk.value := item];
      WaitNow(k, c.sq, tmout);
    }

    /** tsnd_dtq, and snd_dtq if `tmout` is TMO_FEVR, up to the dispatch. */
    method TsndDtq(item: Item, tmout: int) returns (out: S.Outcome)
      requires Valid() && tmout <= k.cfg.time.tmax
      modifies mb, `count, `tail, `rdata, `sdata, k`tcb, k`queue, k`readyPrimap, k`schedtsk, k`runtsk, k`reqflg
      modifies k.tm.heap, k.tm`blocks, k.tm`times, k.tm`lastIndex, k.tm`pending
      ensures Valid()
      ensures DtqResult(Value(), out, None) == TsndStep(old(Value()), c, item, tmout)
    {
      hide Kernel.Rep, Inv, HandOver, DtqOk, S.WaitOn, SendStep, RingItems, DataQueue.RingOk;
      InvOf(Value(), c);
      DtqStepKeeps(Value(), c, Tsnd(item, tmout));
      var ok := CheckDispatch(k);
      if !ok {
        return S.Returns(E_CTX);
      }
      if tmout < S.TMO_FEVR {
        return S.Returns(E_PAR);
      }
      ok := SendData(item, false);
      if ok {
        return S.Returns(E_OK);
      }
      if tmout == S.TMO_POL {
        return S.Returns(E_TMOUT);
      }
      WaitToSend(item, tmout);
      return S.Blocks;
    }

    /** psnd_dtq, and ipsnd_dtq if `fromInt`. */
    method PsndDtq(item: Item, fromInt: bool) returns (ercd: Ercd)
      requires Valid()
      modifies mb, `count, `tail, `rdata, k`tcb, k`queue, k`readyPrimap, k`schedtsk, k`runtsk, k`reqflg
      modifies k.tm.heap, k.tm`blocks, k.tm`times, k.tm`lastIndex, k.tm`pending
      ensures Valid()
      ensures DtqResult(Value(), S.Returns(ercd), None) == PsndStep(old(Value()), c, item, fromInt)
    {
      hide Kernel.Rep, Inv, HandOver, InPriOrder, SendStep, RingItems, DataQueue.RingOk;
      DtqStepKeeps(Value(), c, Psnd(item, fromInt));
      var ok := CheckContext(k, fromInt);
      if !ok {
        return E_CTX;
      }
      ok := SendData(item, fromInt);
      ercd := if ok then E_OK else E_TMOUT;
    }

    /** fsnd_dtq, and ifsnd_dtq if `fromInt`. */
    method FsndDtq(item: Item, fromInt: bool) returns (ercd: Ercd)
      requires Valid()
      modifies mb, `count, `head, `tail, `rdata, k`tcb, k`queue, k`readyPrimap, k`schedtsk, k`runtsk, k`reqflg
      modifies k.tm.heap, k.tm`blocks, k.tm`times, k.tm`lastIndex, k.tm`pending
      ensures Valid()
      ensures DtqResult(Value(), S.Returns(ercd), None) == FsndStep(old(Value()), c, item, fromInt)
    {
      hide Kernel.Rep, Inv, HandOver, InPriOrder, ForceStep, RingItems, DataQueue.RingOk;
      DtqStepKeeps(Value(), c, Fsnd(item, fromInt));
      var ok := CheckContext(k, fromInt);
      if !ok {
        return E_CTX;
      }
      if !(c.cnt > 0) {
        return E_ILUSE;
      }
      ForceSendData(item, fromInt);
      return E_OK;
    }

    /** trcv_dtq, and rcv_dtq if `tmout` is TMO_FEVR, up to the dispatch. */
    method TrcvDtq(tmout: int) returns (out: S.Outcome, r: Option<Item>)
      requires Valid() && tmout <= k.cfg.time.tmax
      modifies mb, `count, `head, `tail, k`tcb, k`queue, k`readyPrimap, k`schedtsk, k`runtsk, k`reqflg
      modifies k.tm.heap, k.tm`blocks, k.tm`times, k.tm`lastIndex, k.tm`pending
      ensures Valid()
      ensures DtqResult(Value(), out, r) == TrcvStep(old(Value()), c, tmout)
    {
      hide Kernel.Rep, Inv, HandOver, DtqOk, S.WaitOn, ReceiveStep, RingItems, DataQueue.RingOk;
      InvOf(Value(), c);
      DtqStepKeeps(Value(), c, Trcv(tmout));
      var ok := CheckDispatch(k);
      if !ok {
        return S.Returns(E_CTX), None;
      }
      if tmout < S.TMO_FEVR {
        return S.Returns(E_PAR), None;
      }
      r := ReceiveData();
      if r != None {
        return S.Returns(E_OK), r;
      }
      if tmout == S.TMO_POL {
        return S.Returns(E_TMOUT), None;
      }
      WaitNow(k, c.rq, tmout);
      return S.Blocks, None;
    }

    /** prcv_dtq. */
    method PrcvDtq() returns (ercd: Ercd, r: Option<Item>)
      requires Valid()
      modifies mb, `count, `head, `tail, k`tcb, k`queue, k`readyPrimap, k`schedtsk, k`runtsk, k`reqflg
      modifies k.tm.heap, k.tm`blocks, k.tm`times, k.tm`lastIndex, k.tm`pending
      ensures Valid()
      ensures DtqResult(Value(), S.Returns(ercd), r) == PrcvStep(old(Value()), c)
    {
      hide Kernel.Rep, Inv, HandOver, InPriOrder, ReceiveStep, RingItems, DataQueue.RingOk;
      DtqStepKeeps(Value(), c, Prcv);
      var ok := CheckContext(k, false);
      if !ok {
        return E_CTX, None;
      }
      r := ReceiveData();
      ercd := if r != None then E_OK else E_TMOUT;
    }

    /** ini_dtq. */
    method IniDtq() returns (ercd: Ercd)
      requires Valid()
      modifies `count, `head, `tail, k`tcb, k`queue, k`readyPrimap, k`schedtsk, k`runtsk
      modifies k.tm.heap, k.tm`blocks, k.tm`times, k.tm`lastIndex, k.tm`pending
      ensures Valid()
      ensures DtqResult(Value(), S.Returns(ercd), None) == ResetStep(old(Value()), c)
    {
      hide Kernel.Rep, Inv, DtqOk, S.ReleaseAll, S.Dispatch, RingItems;
      InvOf(Value(), c);
      DtqStepKeeps(Value(), c, Ini);
      var ok := CheckContext(k, false);
      if !ok {
        return E_CTX;
      }
      ResetFacts(Value(), c);
      DeleteBoth(k, c.sq, c.rq);
      count := 0;
      head := 0;
      tail := 0;
      EmptyRing(mb[..]);
      return E_OK;
    }
  }
}
