/**
 pridataq.c: the sorted list and the free list of a priority data queue, in an array of
 cells linked by pointers.
 */
module PriDataQueue {
  import opened Common
  import opened KernelState
  import opened ObjectSteps
  import opened DataQueues
  import opened DataQueueRuns
  import opened Kernels
  import opened ObjectCalls
  import opened TaskSync
  import S = KernelSpec

  /** PDQMB; pointers to cells are their numbers, NULL is None. */
  datatype Cell = Cell(item: Item, next: Option<nat>)

  /** Following the pointers from `p` leads through the cells `idx`, and ends there. */
  ghost predicate Chain(cells: seq<Cell>, p: Option<nat>, idx: seq<nat>)
    decreases |idx|
  {
    if idx == [] then p == None
    else p == Some(idx[0]) && idx[0] < |cells| && Chain(cells, cells[idx[0]].next, idx[1..])
  }

  /** Cells that are not in the chain do not matter to it. */
  lemma {:induction false} ChainElsewhere(cells: seq<Cell>, p: Option<nat>, idx: seq<nat>, i: nat, cell: Cell)
    requires Chain(cells, p, idx) && i < |cells| && i !in idx
    ensures Chain(cells[i := cell], p, idx)
    decreases |idx|
  {
    if idx != [] {
      assert i !in idx[1..];
      ChainElsewhere(cells, cells[idx[0]].next, idx[1..], i, cell);
    }
  }

  /** The pointer that leads to place `pos` of a chain. */
  lemma {:induction false} ChainAt(cells: seq<Cell>, p: Option<nat>, idx: seq<nat>, pos: nat)
    requires Chain(cells, p, idx) && pos < |idx|
    ensures idx[pos] < |cells|
    ensures cells[idx[pos]].next == if pos + 1 < |idx| then Some(idx[pos + 1]) else None
    decreases |idx|
  {
    if pos > 0 {
      ChainAt(cells, cells[idx[0]].next, idx[1..], pos - 1);
    }
  }

  lemma ChainHead(cells: seq<Cell>, p: Option<nat>, idx: seq<nat>)
    requires Chain(cells, p, idx)
    ensures p == if idx == [] then None else Some(idx[0])
  {
  }

  /** Linking a cell in front. */
  lemma ChainFront(cells: seq<Cell>, p: Option<nat>, idx: seq<nat>, i: nat)
    requires Chain(cells, p, idx) && i < |cells| && cells[i].next == p
    ensures Chain(cells, Some(i), [i] + idx)
  {
    assert ([i] + idx)[1..] == idx;
  }

  /** A chain is its first cell and the rest. */
  lemma ChainTail(cells: seq<Cell>, p: Option<nat>, idx: seq<nat>)
    requires Chain(cells, p, idx) && idx != []
    ensures p == Some(idx[0]) && idx[0] < |cells| && Chain(cells, cells[idx[0]].next, idx[1..])
  {
  }

  /** Linking a cell in behind place `pos` (counting from 1; 0 is the head pointer). */
  lemma {:induction false} ChainInsert(cells: seq<Cell>, p: Option<nat>, idx: seq<nat>, pos: nat, i: nat)
    requires Chain(cells, p, idx) && pos <= |idx| && i < |cells| && i !in idx && NoDup(idx)
    requires cells[i].next == if pos < |idx| then Some(idx[pos]) else None
    ensures pos == 0 ==> Chain(cells, Some(i), [i] + idx)
    ensures pos > 0 ==>
      && idx[pos - 1] < |cells|
      && Chain(cells[idx[pos - 1] := cells[idx[pos - 1]].(next := Some(i))], p, idx[..pos] + [i] + idx[pos..])
    decreases |idx|
  {
    hide Chain, NoDup;
    ChainHead(cells, p, idx);
    if pos == 0 {
      ChainFront(cells, p, idx, i);
    } else {
      var f, j := idx[0], idx[pos - 1];
      ChainAt(cells, p, idx, pos - 1);
      ChainTail(cells, p, idx);
      FirstApart(idx, pos, i);
      var rest := idx[1..];
      var cells' := cells[j := cells[j].(next := Some(i))];
      ChainInsert(cells, cells[f].next, rest, pos - 1, i);
      if pos == 1 {
        ChainElsewhere(cells, Some(i), [i] + rest, j, cells'[j]);
        ChainFront(cells', Some(i), [i] + rest, f);
      } else {
        ChainFront(cells', cells[f].next, rest[..pos - 1] + [i] + rest[pos - 1..], f);
      }
    }
  }

  /** The first of several different cells, and how a sequence goes on behind it. */
  lemma FirstApart(idx: seq<nat>, pos: nat, i: nat)
    requires NoDup(idx) && 0 < pos <= |idx| && i !in idx
    ensures NoDup(idx[1..]) && i !in idx[1..] && idx[0] !in idx[1..] && idx[0] !in [i] + idx[1..]
    ensures pos > 1 ==> idx[pos - 1] != idx[0] && idx[1..][pos - 2] == idx[pos - 1]
    ensures [idx[0]] + (idx[1..][..pos - 1] + [i] + idx[1..][pos - 1..]) == idx[..pos] + [i] + idx[pos..]
    ensures pos == 1 ==> [idx[0]] + ([i] + idx[1..]) == idx[..pos] + [i] + idx[pos..]
  {
    assert idx[0] in idx;
    assert idx[1..][..pos - 1] == idx[1..pos] && idx[1..][pos - 1..] == idx[pos..];
    assert [idx[0]] + idx[1..pos] == idx[..pos];
  }

  /** What the cells of a chain hold. */
  function ItemsOf(cells: seq<Cell>, idx: seq<nat>): seq<Item>
    requires forall k :: 0 <= k < |idx| ==> idx[k] < |cells|
  {
    seq(|idx|, k requires 0 <= k < |idx| => cells[idx[k]].item)
  }

  lemma LiveIn(live: seq<nat>)
    ensures forall i :: 0 <= i < |live| ==> live[i] in live
  {
  }

  /** A cell that is in no list does not matter. */
  lemma SameItems(cells: seq<Cell>, cells': seq<Cell>, idx: seq<nat>, p: nat, items: seq<Item>)
    requires |items| == |idx| && forall k :: 0 <= k < |idx| ==> idx[k] < |cells| && items[k] == cells[idx[k]].item
    requires |cells'| == |cells| && p !in idx && forall i: nat :: i < |cells| && i != p ==> cells'[i] == cells[i]
    ensures forall k :: 0 <= k < |idx| ==> idx[k] < |cells'|
    ensures ItemsOf(cells', idx) == items
  {
    hide ItemsOf;
    LiveIn(idx);
    ItemsIs(cells', idx, items);
  }

  lemma ItemsIs(cells: seq<Cell>, idx: seq<nat>, items: seq<Item>)
    requires |items| == |idx| && forall k :: 0 <= k < |idx| ==> idx[k] < |cells| && items[k] == cells[idx[k]].item
    ensures ItemsOf(cells, idx) == items
  {
  }

  /** The place behind all data that are not worse than `pri`. */
  function Place(items: seq<Item>, pri: int): (k: nat)
    ensures k <= |items|
  {
    if items == [] || items[0].pri > pri then 0 else 1 + Place(items[1..], pri)
  }

  lemma {:induction false} PlaceBetween(items: seq<Item>, pri: int)
    ensures var pos := Place(items, pri);
      (forall i :: 0 <= i < pos ==> items[i].pri <= pri) && (pos < |items| ==> items[pos].pri > pri)
  {
    if items != [] && items[0].pri <= pri {
      PlaceBetween(items[1..], pri);
      assert forall i :: 0 < i < 1 + Place(items[1..], pri) ==> items[i] == items[1..][i - 1];
    }
  }

  lemma {:induction false} PlaceIs(items: seq<Item>, pri: int, pos: nat)
    requires pos <= |items| && (forall i :: 0 <= i < pos ==> items[i].pri <= pri)
    requires pos < |items| ==> items[pos].pri > pri
    ensures Place(items, pri) == pos
  {
    if pos > 0 {
      PlaceIs(items[1..], pri, pos - 1);
    }
  }

  /** Insertion at the place that the loop finds. */
  lemma {:induction false} InsertPriAt(items: seq<Item>, x: Item, pos: nat)
    requires pos <= |items| && (forall i :: 0 <= i < pos ==> items[i].pri <= x.pri)
    requires pos < |items| ==> items[pos].pri > x.pri
    ensures InsertPri(items, x) == items[..pos] + [x] + items[pos..]
  {
    if items != [] && items[0].pri <= x.pri {
      InsertPriAt(items[1..], x, pos - 1);
      assert items[1..][..pos - 1] == items[1..pos] && items[1..][pos - 1..] == items[pos..];
      assert [items[0]] + items[1..pos] == items[..pos];
    }
  }

  /** PDQCB with its cells, and the WINFO_PDQ of the tasks. */
  class PriDataQueue {
    const k: Kernel
    const c: DtqConfig
    const mb: array<Cell>
    var count: nat
    var pHead: Option<nat>
    var unused: nat
    var pFreelist: Option<nat>
    var sdata: map<TaskId, Item>
    var rdata: map<TaskId, Item>
    ghost var live: seq<nat>
    ghost var free: seq<nat>

    /** The cells below `unused` are, each once, either in the list of data or in the free list. */
    ghost predicate ListOk()
      reads `count, `pHead, `unused, `pFreelist, `live, `free, mb
    {
      && mb.Length == c.cnt && unused <= c.cnt && count == |live|
      && Chain(mb[..], pHead, live) && Chain(mb[..], pFreelist, free)
      && NoDup(live) && NoDup(free) && (forall i :: i in live ==> i !in free)
      && (forall i: nat :: i < unused <==> i in live || i in free)
      && |live| + |free| == unused
    }

    /** The stored data, in list order. */
    ghost function Items(): (r: seq<Item>)
      requires ListOk()
      reads `count, `pHead, `unused, `pFreelist, `live, `free, mb
      ensures |r| == |live| && forall i :: 0 <= i < |live| ==> live[i] < mb.Length && r[i] == mb[live[i]].item
    {
      assert forall i :: 0 <= i < |live| ==> live[i] in live;
      ItemsOf(mb[..], live)
    }

    ghost predicate Valid()
      reads this, mb, k, k.tm, k.tm.heap
    {
      ListOk() && k.Rep() && DtqOk(Value(), c) && c.prio
    }

    ghost function Value(): DtqState
      requires ListOk()
      reads this, mb, k, k.tm
    {
      DtqState(k.View(), Items(), sdata, rdata)
    }

    /** The first part of enqueue_pridata: a cell from the free list, or one not used before. */
    method GetCell(item: Item) returns (p: nat)
      requires ListOk() && count < c.cnt
      modifies mb, `unused, `pFreelist, `free
      ensures p < mb.Length && mb.Length == c.cnt && unused <= c.cnt
      ensures mb[p].item == item && p !in live && p !in free && NoDup(free)
      ensures forall i: nat :: i < mb.Length && i != p ==> mb[i] == old(mb[i])
      ensures Chain(mb[..], pHead, live) && Chain(mb[..], pFreelist, free)
      ensures (forall i :: i in live ==> i !in free) && (forall i: nat :: i < unused <==> i == p || i in live || i in free)
      ensures |live| + 1 + |free| == unused
    {
      ghost var cells := mb[..];
      ChainHead(cells, pFreelist, free);
      if pFreelist != None {
        p := pFreelist.value;
        pFreelist := mb[p].next;
        free := free[1..];
        assert p in old(free);
        assert forall i :: i in old(free) <==> i == p || i in free;
      } else {
        p := unused;
        unused := unused + 1;
      }
      mb[p] := mb[p].(item := item);
      assert mb[..] == cells[p := mb[p]];
      ChainElsewhere(cells, pHead, live, p, mb[p]);
      ChainElsewhere(cells, pFreelist, free, p, mb[p]);
    }

    /** The loop of enqueue_pridata: `prev` is where the pointer to the new cell goes, None
        being p_head, and `next` what follows it. */
    method FindPlace(datapri: int) returns (prev: Option<nat>, next: Option<nat>)
      requires Chain(mb[..], pHead, live) && forall i :: 0 <= i < |live| ==> live[i] < mb.Length
      ensures var pos := Place(ItemsOf(mb[..], live), datapri);
        && prev == (if pos == 0 then None else Some(live[pos - 1]))
        && next == (if pos < |live| then Some(live[pos]) else None)
    {
      prev := None;
      next := pHead;
      ghost var pos := 0;
      ChainHead(mb[..], pHead, live);
      while next != None
        invariant pos <= |live|
        invariant prev == if pos == 0 then None else Some(live[pos - 1])
        invariant next == if pos < |live| then Some(live[pos]) else None
        invariant forall i :: 0 <= i < pos ==> mb[live[i]].item.pri <= datapri
        decreases |live| - pos
      {
        if mb[next.value].item.pri > datapri {
          break;
        }
        ChainAt(mb[..], pHead, live, pos);
        prev := next;
        next := mb[next.value].next;
        pos := pos + 1;
      }
      PlaceIs(ItemsOf(mb[..], live), datapri, pos);
    }

    /** enqueue_pridata. */
    method EnqueuePridata(item: Item)
      requires ListOk() && count < c.cnt
      modifies mb, `count, `pHead, `unused, `pFreelist, `live, `free
      ensures ListOk() && Items() == InsertPri(old(Items()), item)
    {
      hide Chain, ItemsOf, InsertPri, NoDup, Place;
      ghost var items, was, cells := Items(), live, mb[..];
      LiveIn(live);
      var p := GetCell(item);
      SameItems(cells, mb[..], live, p, items);
      ghost var pos := Place(items, item.pri);
      var prev, next := FindPlace(item.pri);
      PlaceBetween(items, item.pri);
      InsertPriAt(items, item, pos);
      LinkCell(p, prev, next, pos);
      ItemsInserted(items, Items(), was, live, mb[..], pos, p, item);
    }

    /** The last part of enqueue_pridata: the cell is linked in. */
    method LinkCell(p: nat, prev: Option<nat>, next: Option<nat>, ghost pos: nat)
      requires p < mb.Length && p !in live && p !in free && NoDup(live) && NoDup(free) && mb.Length == c.cnt && unused <= c.cnt
      requires Chain(mb[..], pHead, live) && Chain(mb[..], pFreelist, free)
      requires (forall i :: i in live ==> i !in free) && (forall i: nat :: i < unused <==> i == p || i in live || i in free)
      requires |live| + 1 + |free| == unused && count == |live| && pos <= |live|
      requires prev == if pos == 0 then None else Some(live[pos - 1])
      requires next == if pos < |live| then Some(live[pos]) else None
      modifies mb, `count, `pHead, `live
      ensures ListOk() && live == old(live)[..pos] + [p] + old(live)[pos..]
      ensures forall i: nat :: i < mb.Length ==> mb[i].item == old(mb[i].item)
    {
      InsertMembers(live, pos, p);
      ghost var cells := mb[..];
      mb[p] := mb[p].(next := next);
      assert mb[..] == cells[p := mb[p]];
      ChainElsewhere(cells, pHead, live, p, mb[p]);
      ChainElsewhere(cells, pFreelist, free, p, mb[p]);
      ghost var cells1 := mb[..];
      ChainInsert(cells1, pHead, live, pos, p);
      hide Chain, NoDup;
      if prev == None {
        pHead := Some(p);
      } else {
        mb[prev.value] := mb[prev.value].(next := Some(p));
        assert mb[..] == cells1[prev.value := mb[prev.value]];
        assert prev.value in live;
        ChainElsewhere(cells1, pFreelist, free, prev.value, mb[prev.value]);
      }
      live := live[..pos] + [p] + live[pos..];
      count := count + 1;
    }

    /** dequeue_pridata. */
    method DequeuePridata() returns (item: Item)
      requires ListOk() && count > 0
      modifies mb, `count, `pHead, `pFreelist, `live, `free
      ensures ListOk() && old(Items()) == [item] + Items()
    {
      ghost var cells := mb[..];
      ChainHead(cells, pHead, live);
      var p := pHead.value;
      pHead := mb[p].next;
      count := count - 1;
      item := mb[p].item;
      mb[p] := mb[p].(next := pFreelist);
      pFreelist := Some(p);
      assert mb[..] == cells[p := mb[p]];
      assert p in live && p !in live[1..];
      ChainElsewhere(cells, cells[p].next, live[1..], p, mb[p]);
      ChainElsewhere(cells, mb[p].next, free, p, mb[p]);
      assert forall i :: i in live <==> i == p || i in live[1..];
      live := live[1..];
      assert ([p] + free)[1..] == free;
      free := [p] + free;
    }

    /** initialize_pridataq, for one priority data queue. */
    constructor (k: Kernel, c: DtqConfig)
      requires k.Rep() && c.prio && DtqOk(DtqState(k.View(), [], map[], map[]), c)
      ensures this.k == k && this.c == c && fresh(mb) && Valid()
      ensures Value() == DtqState(k.View(), [], map[], map[])
    {
      this.k := k;
      this.c := c;
      hide Kernel.Rep, DtqOk;
      mb := new Cell[c.cnt](_ => Cell(Item(0, 0), None));
      count, pHead, unused, pFreelist := 0, None, 0, None;
      sdata, rdata, live, free := map[], map[], [], [];
    }

    /** send_pridata, with the dispatch that follows. */
    method SendPridata(item: Item, fromInt: bool) returns (ok: bool)
      requires Valid() && InContext(k.View(), fromInt)
      modifies mb, `count, `pHead, `unused, `pFreelist, `live, `free, `rdata
      modifies k`tcb, k`queue, k`readyPrimap, k`schedtsk, k`runtsk, k`reqflg
      modifies k.tm.heap, k.tm`blocks, k.tm`times, k.tm`lastIndex, k.tm`pending
      ensures ListOk() && k.Rep()
      ensures match SendStep(old(Value()), c, item, fromInt)
        case Some(y) => ok && Value() == y
        case None => !ok && Value() == old(Value())
    {
      hide Kernel.Rep, Inv, HandOver, InPriOrder, Chain, ItemsOf, InsertPri;
      if k.queue[c.rq] != [] {
        rdata := rdata[k.queue[c.rq][0] := item];
        var _ := CompleteNext(k, c.rq, fromInt);
        return true;
      } else if count < c.cnt {
        EnqueuePridata(item);
        return true;
      } else {
        return false;
      }
    }

    /** receive_pridata, with the dispatch that follows. */
    method ReceivePridata() returns (r: Option<Item>)
      requires Valid() && S.InTask(k.View())
      modifies mb, `count, `pHead, `unused, `pFreelist, `live, `free
      modifies k`tcb, k`queue, k`readyPrimap, k`schedtsk, k`runtsk, k`reqflg
      modifies k.tm.heap, k.tm`blocks, k.tm`times, k.tm`lastIndex, k.tm`pending
      ensures ListOk() && k.Rep()
      ensures match ReceiveStep(old(Value()), c)
        case Some(p) => r == Some(p.1) && Value() == p.0
        case None => r == None && Value() == old(Value())
    {
      hide Kernel.Rep, Inv, HandOver, InPriOrder, Chain, ItemsOf, InsertPri;
      if count > 0 {
        var item := DequeuePridata();
        if k.queue[c.sq] != [] {
          assert k.queue[c.sq][0] in k.queue[c.sq];
          EnqueuePridata(sdata[k.queue[c.sq][0]]);
          var _ := CompleteNext(k, c.sq, false);
        }
        return Some(item);
      } else if k.queue[c.sq] != [] {
        assert k.queue[c.sq][0] in k.queue[c.sq];
        var item := sdata[k.queue[c.sq][0]];
        var _ := CompleteNext(k, c.sq, false);
        return Some(item);
      } else {
        return None;
      }
    }

    /** tsnd_pdq, and snd_pdq if `tmout` is TMO_FEVR, up to the dispatch. */
    method TsndPdq(item: Item, tmout: int) returns (out: S.Outcome)
      requires Valid() && tmout <= k.cfg.time.tmax
      modifies mb, `count, `pHead, `unused, `pFreelist, `live, `free, `rdata, `sdata
      modifies k`tcb, k`queue, k`readyPrimap, k`schedtsk, k`runtsk, k`reqflg
      modifies k.tm.heap, k.tm`blocks, k.tm`times, k.tm`lastIndex, k.tm`pending
      ensures Valid()
      ensures DtqResult(Value(), out, None) == TsndStep(old(Value()), c, item, tmout)
    {
      hide Kernel.Rep, Inv, HandOver, DtqOk, S.WaitOn, SendStep, ItemsOf, PriDataQueue.ListOk;
      InvOf(Value(), c);
      DtqStepKeeps(Value(), c, Tsnd(item, tmout));
      var ok := CheckDispatch(k);
      if !ok {
        return S.Returns(E_CTX);
      }
      if !GoodItem(c, item) || tmout < S.TMO_FEVR {
        return S.Returns(E_PAR);
      }
      ok := SendPridata(item, false);
      if ok {
        return S.Returns(E_OK);
      }
      if tmout == S.TMO_POL {
        return S.Returns(E_TMOUT);
      }
      sdata := sdata[k.runtsk.value := item];
      WaitNow(k, c.sq, tmout);
      return S.Blocks;
    }

    /** psnd_pdq, and ipsnd_pdq if `fromInt`. */
    method PsndPdq(item: Item, fromInt: bool) returns (ercd: Ercd)
      requires Valid()
      modifies mb, `count, `pHead, `unused, `pFreelist, `live, `free, `rdata
      modifies k`tcb, k`queue, k`readyPrimap, k`schedtsk, k`runtsk, k`reqflg
      modifies k.tm.heap, k.tm`blocks, k.tm`times, k.tm`lastIndex, k.tm`pending
      ensures Valid()
      ensures DtqResult(Value(), S.Returns(ercd), None) == PsndStep(old(Value()), c, item, fromInt)
    {
      hide Kernel.Rep, Inv, HandOver, DtqOk, SendStep, ItemsOf, PriDataQueue.ListOk;
      InvOf(Value(), c);
      DtqStepKeeps(Value(), c, Psnd(item, fromInt));
      var ok := CheckContext(k, fromInt);
      if !ok {
        return E_CTX;
      }
      if !GoodItem(c, item) {
        return E_PAR;
      }
      ok := SendPridata(item, fromInt);
      ercd := if ok then E_OK else E_TMOUT;
    }

    /** trcv_pdq, and rcv_pdq if `tmout` is TMO_FEVR, up to the dispatch. */
    method TrcvPdq(tmout: int) returns (out: S.Outcome, r: Option<Item>)
      requires Valid() && tmout <= k.cfg.time.tmax
      modifies mb, `count, `pHead, `unused, `pFreelist, `live, `free
      modifies k`tcb, k`queue, k`readyPrimap, k`schedtsk, k`runtsk, k`reqflg
      modifies k.tm.heap, k.tm`blocks, k.tm`times, k.tm`lastIndex, k.tm`pending
      ensures Valid()
      ensures DtqResult(Value(), out, r) == TrcvStep(old(Value()), c, tmout)
    {
      hide Kernel.Rep, Inv, HandOver, DtqOk, S.WaitOn, ReceiveStep, ItemsOf, PriDataQueue.ListOk;
      InvOf(Value(), c);
      DtqStepKeeps(Value(), c, Trcv(tmout));
      var ok := CheckDispatch(k);
      if !ok {
        return S.Returns(E_CTX), None;
      }
      if tmout < S.TMO_FEVR {
        return S.Returns(E_PAR), None;
      }
      r := ReceivePridata();
      if r != None {
        return S.Returns(E_OK), r;
      }
      if tmout == S.TMO_POL {
        return S.Returns(E_TMOUT), None;
      }
      WaitNow(k, c.rq, tmout);
      return S.Blocks, None;
    }

    /** prcv_pdq. */
    method PrcvPdq() returns (ercd: Ercd, r: Option<Item>)
      requires Valid()
      modifies mb, `count, `pHead, `unused, `pFreelist, `live, `free
      modifies k`tcb, k`queue, k`readyPrimap, k`schedtsk, k`runtsk, k`reqflg
      modifies k.tm.heap, k.tm`blocks, k.tm`times, k.tm`lastIndex, k.tm`pending
      ensures Valid()
      ensures DtqResult(Value(), S.Returns(ercd), r) == PrcvStep(old(Value()), c)
    {
      hide Kernel.Rep, Inv, HandOver, DtqOk, ReceiveStep, ItemsOf, PriDataQueue.ListOk;
      InvOf(Value(), c);
      DtqStepKeeps(Value(), c, Prcv);
      var ok := CheckContext(k, false);
      if !ok {
        return E_CTX, None;
      }
      r := ReceivePridata();
      ercd := if r != None then E_OK else E_TMOUT;
    }

    /** ini_pdq. */
    method IniPdq() returns (ercd: Ercd)
      requires Valid()
      modifies `count, `pHead, `unused, `pFreelist, `live, `free, k`tcb, k`queue, k`readyPrimap, k`schedtsk, k`runtsk
      modifies k.tm.heap, k.tm`blocks, k.tm`times, k.tm`lastIndex, k.tm`pending
      ensures Valid()
      ensures DtqResult(Value(), S.Returns(ercd), None) == ResetStep(old(Value()), c)
    {
      hide Kernel.Rep, Inv, DtqOk, S.ReleaseAll, S.Dispatch, Chain, ItemsOf;
      InvOf(Value(), c);
      DtqStepKeeps(Value(), c, Ini);
      var ok := CheckContext(k, false);
      if !ok {
        return E_CTX;
      }
      ResetFacts(Value(), c);
      DeleteBoth(k, c.sq, c.rq);
      ForgetCells();
      return E_OK;
    }

    /** No cell is in use any more. */
    method ForgetCells()
      requires ListOk()
      modifies `count, `pHead, `unused, `pFreelist, `live, `free
      ensures ListOk() && Items() == []
    {
      count := 0;
      pHead := None;
      unused := 0;
      pFreelist := None;
      live, free := [], [];
    }
  }

  lemma ItemsInserted(items: seq<Item>, items': seq<Item>, was: seq<nat>, live: seq<nat>, cells: seq<Cell>, pos: nat, p: nat, item: Item)
    requires |items| == |was| && pos <= |was| && live == was[..pos] + [p] + was[pos..] && |items'| == |live|
    requires forall i :: 0 <= i < |live| ==> live[i] < |cells| && items'[i] == cells[live[i]].item
    requires forall i :: 0 <= i < |was| ==> was[i] < |cells| && items[i] == cells[was[i]].item
    requires p < |cells| && cells[p].item == item
    ensures items' == items[..pos] + [item] + items[pos..]
  {
  }

  lemma InsertMembers(s: seq<nat>, pos: nat, p: nat)
    requires pos <= |s| && NoDup(s) && p !in s
    ensures var r := s[..pos] + [p] + s[pos..];
      |r| == |s| + 1 && NoDup(r) && forall i :: i in r <==> i in s || i == p
  {
    var r := s[..pos] + [p] + s[pos..];
    forall i, j | 0 <= i < j < |r|
      ensures r[i] != r[j]
    {
    }
    assert s == s[..pos] + s[pos..];
  }
}
