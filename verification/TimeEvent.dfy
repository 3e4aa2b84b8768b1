/**
 The time event heap: a binary heap, 1-based, in a fixed array, in which every time
 event block knows its own position, so that any block can be taken out again.
 The node times are words; the ghost map `pending` holds the unbounded times they stand for.
 */
module TimeEvent {
  import opened WordTime
  import opened SystemTime
  import opened HeapOrder
  import opened HeapLinks

  class TimeEvents {
    const cfg: TimeConfig
    const heap: array<Node>  // node i is heap[i - 1]
    var lastIndex: nat
    var blocks: map<Event, Block>
    var currentTime: nat
    var minTime: nat
    var nextTime: nat
    var nextSubtime: nat
    ghost var pending: map<Event, Pending>
    ghost var times: seq<int>  // the unbounded times of the nodes in use
    ghost var min: nat  // the unbounded value of minTime
    ghost var ticks: nat  // the number of ticks so far

    const w: Width := cfg.w

    /** The nodes in use. */
    ghost function Nodes(): seq<Node>
      requires lastIndex <= heap.Length
      reads `lastIndex, heap
    {
      heap[..lastIndex]
    }

    /** All times lie in the window that the word comparison can bear. */
    ghost predicate InWindow(m: map<Event, Pending>)
      reads `minTime, `min
    {
      && minTime == Word(min, w)
      && forall e :: e in m ==> min <= m[e].time < min + w
    }

    /** A heap of the events `m` with a hole. */
    ghost predicate Holed(hole: nat, m: map<Event, Pending>)
      reads `lastIndex, `blocks, `times, `minTime, `min, heap
    {
      && 1 <= hole && |times| == lastIndex <= heap.Length
      && Linked(Nodes(), times, blocks, hole, m, w)
      && Ordered(times, hole)
      && InWindow(m)
    }

    /** A heap of the events `m`. */
    ghost predicate Full(m: map<Event, Pending>)
      reads `lastIndex, `blocks, `times, `minTime, `min, heap
    {
      Holed(lastIndex + 1, m)
    }

    /** The time variables are what they should be after `ticks` ticks. */
    ghost predicate ClockOk()
      reads `currentTime, `nextTime, `nextSubtime, `ticks, `min
    {
      && cfg.Ok()
      && currentTime == Word(TickTime(cfg, ticks), w)
      && nextTime == Word(TickTime(cfg, ticks + 1), w)
      && nextSubtime == TickFraction(cfg, ticks + 1)
      && min <= TickTime(cfg, ticks) <= min + cfg.nume / cfg.deno + 1
    }

    ghost predicate Valid()
      reads this, heap
    {
      Full(pending) && lastIndex == |pending| && ClockOk()
    }

    /** initialize_tmevt, with an array that is large enough for every time event block. */
    constructor (cfg: TimeConfig, capacity: nat, init: Node)
      requires cfg.Ok()
      ensures Valid() && fresh(heap) && heap.Length == capacity && this.cfg == cfg
      ensures pending == map[] && ticks == 0 && min == 0
    {
      this.cfg := cfg;
      heap := new Node[capacity](_ => init);
      currentTime := 0;
      minTime := 0;
      nextTime := Word(cfg.nume / cfg.deno, cfg.w);
      nextSubtime := cfg.nume % cfg.deno;
      lastIndex := 0;
      blocks, pending, times, min, ticks := map[], map[], [], 0, 0;
      new;
      FirstTicks(cfg);
      ModUnique(0, 0, 0, cfg.w);
    }

    /** What is known of a node other than the hole. */
    lemma NodeTime(i: nat, hole: nat, m: map<Event, Pending>)
      requires Holed(hole, m) && 1 <= i <= lastIndex && i != hole
      ensures heap[i - 1].time == Word(times[i - 1], w) && min <= times[i - 1] < min + w
    {
      assert NodeOk(Nodes()[i - 1], times[i - 1], i, blocks, m, w);
    }

    /** The node of a registered event is where its block says. */
    lemma EventNode(e: Event)
      requires Valid() && e in pending
      ensures lastIndex <= heap.Length && minTime == Word(min, w)
      ensures e in blocks && 1 <= blocks[e].index <= lastIndex && heap[blocks[e].index - 1].event == e
      ensures blocks[e].callback == pending[e].callback
      ensures heap[blocks[e].index - 1].time == Word(pending[e].time, w)
      ensures times[blocks[e].index - 1] == pending[e].time
      ensures min <= pending[e].time < min + w
    {
      assert BlockOk(e, Nodes(), blocks, pending);
      var i := blocks[e].index;
      assert NodeOk(Nodes()[i - 1], times[i - 1], i, blocks, pending, w);
    }

    /** The event at the root is registered, and none is earlier. */
    lemma TopIsEarliest()
      requires Valid() && lastIndex > 0
      ensures lastIndex <= heap.Length
      ensures var top := heap[0].event;
        && top in pending && top in blocks && blocks[top].index == 1
        && forall e :: e in pending ==> pending[top].time <= pending[e].time
    {
      assert NodeOk(Nodes()[0], times[0], 1, blocks, pending, w);
      forall e | e in pending
        ensures times[0] <= pending[e].time
      {
        EventNode(e);
        RootIsLeast(times, blocks[e].index);
      }
    }

    /** Moves the node at `from` into the hole, which is then at `from`. */
    method MoveNode(from: nat, hole: nat, ghost m: map<Event, Pending>)
      requires lastIndex <= heap.Length && Linked(Nodes(), times, blocks, hole, m, w)
      requires 1 <= from <= lastIndex && 1 <= hole <= lastIndex && from != hole
      modifies heap, `blocks, `times
      ensures Linked(Nodes(), times, blocks, from, m, w)
      ensures times == old(times)[hole - 1 := old(times)[from - 1]]
      ensures heap[lastIndex..] == old(heap[lastIndex..])
      ensures blocks.Keys == old(blocks.Keys)
      ensures forall e :: e in blocks && e !in m ==> blocks[e] == old(blocks[e])
    {
      LinkedMove(Nodes(), times, blocks, from, hole, m, w);
      assert Nodes()[from - 1] == heap[from - 1];
      heap[hole - 1] := heap[from - 1];
      var e := heap[hole - 1].event;
      blocks := blocks[e := blocks[e].(index := hole)];
      times := times[hole - 1 := times[from - 1]];
      assert Nodes() == old(Nodes())[hole - 1 := old(Nodes())[from - 1]];
    }

    /** Moves the hole at `hole` up to where `time` belongs. */
    method TmevtUp(hole: nat, time: nat, ghost t: nat, ghost m: map<Event, Pending>) returns (index: nat)
      requires Holed(hole, m) && hole <= lastIndex
      requires time == Word(t, w) && min <= t < min + w
      requires Below(times, hole, t)
      modifies heap, `blocks, `times
      ensures 1 <= index <= lastIndex && Holed(index, m)
      ensures Below(times, index, t) && Above(times, index, t)
      ensures heap[lastIndex..] == old(heap[lastIndex..])
      ensures blocks.Keys == old(blocks.Keys)
      ensures forall e :: e in blocks && e !in m ==> blocks[e] == old(blocks[e])
    {
      hide Linked, Ordered, Below;
      index := hole;
      while index > 1
        invariant 1 <= index <= lastIndex && Holed(index, m) && Below(times, index, t)
        invariant heap[lastIndex..] == old(heap[lastIndex..])
        invariant blocks.Keys == old(blocks.Keys)
        invariant forall e :: e in blocks && e !in m ==> blocks[e] == old(blocks[e])
      {
        var parent := index / 2;
        NodeTime(parent, index, m);
        OrderInWindow(times[parent - 1], t, min, w);
        if Le(heap[parent - 1].time, time, minTime, w) {
          break;
        }
        MoveUp(times, index, t);
        MoveNode(parent, index, m);
        index := parent;
      }
    }

    /** The child of the hole with the earlier time. */
    method EarlierChild(index: nat, ghost m: map<Event, Pending>) returns (child: nat)
      requires Holed(index, m) && 2 * index <= lastIndex
      ensures child / 2 == index && 2 <= child <= lastIndex
      ensures forall i :: 2 <= i <= lastIndex && i / 2 == index ==> At(times, child) <= At(times, i)
    {
      hide Linked, Ordered, Below, Above;
      child := 2 * index;
      NodeTime(child, index, m);
      if child + 1 <= lastIndex {
        NodeTime(child + 1, index, m);
        OrderInWindow(times[child], times[child - 1], min, w);
        if Lt(heap[child].time, heap[child - 1].time, minTime, w) {
          child := child + 1;
        }
      }
      LeastChild(times, index, child);
    }

    /** Moves the hole at `hole` down to where `time` belongs. */
    method TmevtDown(hole: nat, time: nat, ghost t: nat, ghost m: map<Event, Pending>) returns (index: nat)
      requires Holed(hole, m)
      requires time == Word(t, w) && min <= t < min + w
      requires Above(times, hole, t)
      modifies heap, `blocks, `times
      ensures Holed(index, m)
      ensures if hole <= lastIndex then index <= lastIndex else index == hole
      ensures Below(times, index, t) && Above(times, index, t)
      ensures heap[lastIndex..] == old(heap[lastIndex..])
      ensures blocks.Keys == old(blocks.Keys)
      ensures forall e :: e in blocks && e !in m ==> blocks[e] == old(blocks[e])
    {
      hide Linked, Ordered, Above;
      index := hole;
      while 2 * index <= lastIndex
        invariant Holed(index, m) && Above(times, index, t)
        invariant if hole <= lastIndex then index <= lastIndex else index == hole
        invariant heap[lastIndex..] == old(heap[lastIndex..])
        invariant blocks.Keys == old(blocks.Keys)
        invariant forall e :: e in blocks && e !in m ==> blocks[e] == old(blocks[e])
        decreases lastIndex - index
      {
        var child := EarlierChild(index, m);
        NodeTime(child, index, m);
        OrderInWindow(t, times[child - 1], min, w);
        if Le(time, heap[child - 1].time, minTime, w) {
          break;
        }
        MoveDown(times, index, child, t);
        MoveNode(child, index, m);
        index := child;
      }
    }

    /** Stores a node in the hole, where its time fits; past the end this changes nothing in use. */
    method PutNode(index: nat, node: Node, ghost t: nat, ghost m: map<Event, Pending>)
      requires Holed(index, m) && index <= lastIndex + 1 && index <= heap.Length
      requires index <= lastIndex ==> Below(times, index, t) && Above(times, index, t)
      requires node.event in blocks && node.event !in m
      requires node.time == Word(t, w) && min <= t < min + w
      modifies heap, `blocks, `times
      ensures index <= lastIndex ==> Full(m[node.event := Pending(t, old(blocks)[node.event].callback)])
      ensures index > lastIndex ==> Full(m)
      ensures blocks == old(blocks)[node.event := old(blocks)[node.event].(index := index)]
    {
      hide Linked, Ordered, Below, Above, Word;
      heap[index - 1] := node;
      blocks := blocks[node.event := blocks[node.event].(index := index)];
      if index <= lastIndex {
        Fill(times, index, t);
        LinkedPut(old(Nodes()), times, old(blocks), index, m, w, node, t);
        times := times[index - 1 := t];
        assert Nodes() == old(Nodes())[index - 1 := node];
      } else {
        assert Nodes() == old(Nodes());
        LinkedForget(Nodes(), times, old(blocks), index, m, w, node.event, old(blocks)[node.event].(index := index));
      }
    }

    /** tmevtb_insert: registers `e`, whose block is set up already, at `time`. */
    method Insert(e: Event, time: nat, ghost t: nat)
      requires Valid() && e in blocks && e !in pending && lastIndex < heap.Length
      requires time == Word(t, w) && min <= t < min + w
      modifies heap, `blocks, `times, `lastIndex, `pending
      ensures Valid()
      ensures pending == old(pending)[e := Pending(t, old(blocks)[e].callback)]
    {
      hide Linked, Ordered, Below, Above, Word, TimeEvents.InWindow, TimeEvents.ClockOk;
      Extend(times, 0, t);
      LinkedExtend(Nodes(), times, blocks, pending, w, heap[lastIndex], 0);
      lastIndex := lastIndex + 1;
      times := times + [0];
      assert Nodes() == old(Nodes()) + [heap[lastIndex - 1]];
      var index := TmevtUp(lastIndex, time, t, pending);
      PutNode(index, Node(time, e), t, pending);
      pending := pending[e := Pending(t, blocks[e].callback)];
    }

    /** --last_index: the last node is no longer in use, and the place of `e` is a hole. */
    method CloseEnd(index: nat, ghost e: Event) returns (last: Node, ghost t: nat)
      requires Valid() && e in pending && e in blocks && blocks[e].index == index
      modifies `times, `lastIndex
      ensures lastIndex == old(lastIndex) - 1
      ensures 1 <= index <= lastIndex + 1 <= heap.Length
      ensures last == heap[lastIndex] && last.event in blocks && last.time == Word(t, w)
      ensures last.event in pending && pending[last.event] == Pending(t, blocks[last.event].callback)
      ensures index == lastIndex + 1 <==> e == last.event
      ensures Holed(index, pending - {e, last.event}) && min <= t < min + w
      ensures 1 < index == lastIndex + 1 ==> times[index / 2 - 1] <= t
    {
      hide Linked, Ordered;
      LinkedOpen(Nodes(), times, blocks, pending, w, e);
      last := heap[lastIndex - 1];
      t := times[lastIndex - 1];
      Open(times, index);
      lastIndex := lastIndex - 1;
      times := times[..lastIndex];
      assert Nodes() == old(Nodes())[..lastIndex];
    }

    /** Moves the hole to where the last node belongs, and the last node there. */
    method Settle(hole: nat, ghost t: nat, ghost m: map<Event, Pending>)
      requires Holed(hole, m) && hole <= lastIndex + 1 <= heap.Length
      requires var last := heap[lastIndex];
        && last.event in blocks && last.event !in m
        && last.time == Word(t, w) && min <= t < min + w
      requires 1 < hole == lastIndex + 1 ==> times[hole / 2 - 1] <= t
      modifies heap, `blocks, `times
      ensures var last := old(heap[lastIndex]).event;
        Full(if hole <= lastIndex then m[last := Pending(t, old(blocks)[last].callback)] else m)
    {
      hide Linked, Ordered, Below;
      var index := hole;
      var event_time := heap[lastIndex].time;
      if 1 < index {
        NodeTime(index / 2, index, m);
        OrderInWindow(t, times[index / 2 - 1], min, w);
      }
      if index > 1 && Lt(event_time, heap[index / 2 - 1].time, minTime, w) {
        MoveUp(times, index, t);
        MoveNode(index / 2, index, m);
        index := TmevtUp(index / 2, event_time, t, m);
      } else {
        index := TmevtDown(index, event_time, t, m);
      }
      assert heap[lastIndex] == heap[lastIndex..][0];
      PutNode(index, heap[lastIndex], t, m);
    }

    /** Settle, for the hole at the root. */
    method SettleTop(time: nat, ghost t: nat, ghost m: map<Event, Pending>) returns (index: nat)
      requires Holed(1, m) && 1 <= lastIndex < heap.Length
      requires var last := heap[lastIndex];
        && last.event in blocks && last.event !in m
        && last.time == time == Word(t, w) && min <= t < min + w
      modifies heap, `blocks, `times
      ensures var last := old(heap[lastIndex]).event;
        Full(m[last := Pending(t, old(blocks)[last].callback)])
    {
      hide Linked, Ordered, Below;
      index := TmevtDown(1, time, t, m);
      assert heap[lastIndex] == heap[lastIndex..][0];
      PutNode(index, heap[lastIndex], t, m);
    }

    /** tmevtb_delete: takes `e` out, wherever it is. */
    method Delete(e: Event)
      requires Valid() && e in pending
      modifies heap, `blocks, `times, `lastIndex, `pending
      ensures Valid()
      ensures pending == old(pending) - {e}
    {
      hide Holed, Linked, Ordered, InWindow;
      assert e in blocks by { EventNode(e); }
      var index := blocks[e].index;
      var last, t := CloseEnd(index, e);
      ghost var m := pending - {e, last.event};
      if lastIndex > 0 {
        Settle(index, t, m);
      }
      pending := pending - {e};
      assert pending == if e == last.event then m else m[last.event := Pending(t, old(blocks)[last.event].callback)];
    }

    /** tmevtb_delete_top: takes the event at the root out. */
    method DeleteTop()
      requires Valid() && lastIndex > 0
      modifies heap, `blocks, `times, `lastIndex, `pending
      ensures old(heap[0].event) in old(pending)
      ensures Valid() && pending == old(pending) - {old(heap[0].event)}
    {
      hide Holed, Linked, Ordered, InWindow;
      TopIsEarliest();
      ghost var e := heap[0].event;
      var last, t := CloseEnd(1, e);
      ghost var m := pending - {e, last.event};
      if lastIndex > 0 {
        var index := SettleTop(last.time, t, m);
      }
      pending := pending - {e};
      assert pending == if e == last.event then m else m[last.event := Pending(t, old(blocks)[last.event].callback)];
    }

    /** base_time. */
    function Base(): nat
      reads `nextTime, `nextSubtime
    {
      Word(nextTime + if nextSubtime > 0 then 1 else 0, w)
    }

    /** Relative times are counted from within the window, and do not leave it. */
    lemma BaseFits()
      requires ClockOk()
      ensures cfg.Ok()
      ensures Base() == Word(BaseTime(cfg, ticks), w)
      ensures min <= TickTime(cfg, ticks) <= TickTime(cfg, ticks + 1) <= BaseTime(cfg, ticks)
      ensures TickTime(cfg, ticks) < BaseTime(cfg, ticks) && BaseTime(cfg, ticks) + cfg.tmax < min + w
    {
      BaseBounds(cfg, ticks);
      WordAdd(TickTime(cfg, ticks + 1), if nextSubtime > 0 then 1 else 0, w);
    }

    /** tmevtb_enqueue: registers `e` for `time` milliseconds from the base time. */
    method Enqueue(e: Event, time: nat, callback: Callback)
      requires Valid() && e !in pending && |pending| < heap.Length
      requires time <= cfg.tmax
      modifies heap, `blocks, `times, `lastIndex, `pending
      ensures Valid()
      ensures pending == old(pending)[e := Pending(BaseTime(cfg, ticks) + time, callback)]
    {
      hide Full, ClockOk;
      BaseFits();
      WordAdd(BaseTime(cfg, ticks), time, w);
      EnqueueEvttim(e, Word(Base() + time, w), callback, BaseTime(cfg, ticks) + time);
    }

    /** tmevtb_enqueue_evttim: registers `e` for a given event time. */
    method EnqueueEvttim(e: Event, time: nat, callback: Callback, ghost t: nat)
      requires Valid() && e !in pending && |pending| < heap.Length
      requires time == Word(t, w) && min <= t < min + w
      modifies heap, `blocks, `times, `lastIndex, `pending
      ensures Valid()
      ensures pending == old(pending)[e := Pending(t, callback)]
    {
      hide Linked, Ordered, Word;
      var index := if e in blocks then blocks[e].index else 0;
      LinkedForget(Nodes(), times, blocks, lastIndex + 1, pending, w, e, Block(index, callback));
      blocks := blocks[e := Block(index, callback)];
      Insert(e, time, t);
    }

    /** tmevt_lefttim: the time left until `e`, counted from the base time. */
    method LeftTime(e: Event) returns (left: nat)
      requires Valid() && e in pending
      ensures left == if pending[e].time <= BaseTime(cfg, ticks) then 0 else pending[e].time - BaseTime(cfg, ticks)
    {
      hide Full, ClockOk, InWindow, Le, Word, BaseTime, TickTime;
      EventNode(e);
      LeftTimeWords(pending[e].time);
      var time := heap[blocks[e].index - 1].time;
      if Le(time, nextTime, minTime, w) {
        return 0;
      }
      return Word(time - Base(), w);
    }

    lemma LeftTimeWords(t: nat)
      requires ClockOk() && minTime == Word(min, w) && min <= t < min + w
      ensures cfg.Ok() && TickTime(cfg, ticks + 1) <= BaseTime(cfg, ticks) <= TickTime(cfg, ticks + 1) + 1
      ensures Le(Word(t, w), nextTime, minTime, w) <==> t <= TickTime(cfg, ticks + 1)
      ensures t >= BaseTime(cfg, ticks) ==> Word(Word(t, w) - Base(), w) == t - BaseTime(cfg, ticks)
    {
      BaseFits();
      OrderInWindow(t, TickTime(cfg, ticks + 1), min, w);
      if t >= BaseTime(cfg, ticks) {
        WordDistance(t, BaseTime(cfg, ticks), w);
      }
    }

    /** The head of signal_time: one tick passes. */
    method AdvanceTime()
      requires Valid() && min == TickTime(cfg, ticks)
      modifies `currentTime, `nextTime, `nextSubtime, `ticks
      ensures Valid() && ticks == old(ticks) + 1
    {
      hide Full, Word, TickTime, TickFraction;
      BaseBounds(cfg, ticks);
      NextWords(cfg, ticks + 1);
      currentTime := nextTime;
      if cfg.deno == 1 {
        nextTime := Word(currentTime + cfg.nume, w);
      } else {
        nextSubtime := nextSubtime + cfg.nume % cfg.deno;
        nextTime := Word(currentTime + cfg.nume / cfg.deno, w);
        if nextSubtime >= cfg.deno {
          nextSubtime := nextSubtime - cfg.deno;
          nextTime := Word(nextTime + 1, w);
        }
      }
      ticks := ticks + 1;
    }

    /** However often the variables were advanced, they hold the exact time of the next tick:
        as a word, and as numbers as long as the word has not wrapped around. */
    lemma ClockExact()
      requires ClockOk()
      ensures nextSubtime < cfg.deno
      ensures exists t: nat :: nextTime == Word(t, w) && t * cfg.deno + nextSubtime == (ticks + 1) * cfg.nume
      ensures (ticks + 1) * cfg.nume < w * cfg.deno ==> nextTime * cfg.deno + nextSubtime == (ticks + 1) * cfg.nume
    {
      hide TickTime, TickFraction, Word;
      TickExact(cfg, ticks + 1);
      BeforeWrap(cfg, ticks + 1);
    }

    /** Is there an event to fire? */
    method TopIsDue() returns (due: bool)
      requires Valid()
      ensures due ==> lastIndex > 0 && heap[0].event in pending && pending[heap[0].event].time <= TickTime(cfg, ticks)
      ensures due <==> exists e :: e in pending && pending[e].time <= TickTime(cfg, ticks)
    {
      hide Full, Word, Le;
      if lastIndex == 0 {
        return false;
      }
      TopIsEarliest();
      EventNode(heap[0].event);
      BaseFits();
      OrderInWindow(pending[heap[0].event].time, TickTime(cfg, ticks), min, w);
      return Le(heap[0].time, currentTime, minTime, w);
    }

    /** The tail of signal_time: the base of the comparisons moves to the current time. */
    method Rebase()
      requires Valid() && forall e :: e in pending ==> TickTime(cfg, ticks) <= pending[e].time
      modifies `minTime, `min
      ensures Valid() && min == TickTime(cfg, ticks)
    {
      hide Linked, Ordered, Word;
      minTime := currentTime;
      min := TickTime(cfg, ticks);
    }
  }
}
