/**
 How many time events there can be: one a task, one a cyclic handler, one an alarm handler.
 The array of the time event heap is generated with just that many nodes.
 */
module Capacity {
  import opened HeapLinks
  import opened KernelState

  function TaskEvents(n: nat): set<Event> { set t: nat | t < n :: TaskTimer(t) }

  function CycEvents(n: nat): set<Event> { set c: nat | c < n :: CycTimer(c) }

  function AlmEvents(n: nat): set<Event> { set a: nat | a < n :: AlmTimer(a) }

  lemma {:induction false} TaskEventsCount(n: nat)
    ensures |TaskEvents(n)| == n
  {
    if n > 0 {
      TaskEventsCount(n - 1);
      assert TaskEvents(n) == TaskEvents(n - 1) + {TaskTimer(n - 1)};
    }
  }

  lemma {:induction false} CycEventsCount(n: nat)
    ensures |CycEvents(n)| == n
  {
    if n > 0 {
      CycEventsCount(n - 1);
      assert CycEvents(n) == CycEvents(n - 1) + {CycTimer(n - 1)};
    }
  }

  lemma {:induction false} AlmEventsCount(n: nat)
    ensures |AlmEvents(n)| == n
  {
    if n > 0 {
      AlmEventsCount(n - 1);
      assert AlmEvents(n) == AlmEvents(n - 1) + {AlmTimer(n - 1)};
    }
  }

  lemma SubsetSize<T>(a: set<T>, b: set<T>)
    requires a <= b
    ensures |a| <= |b|
  {
    assert b == a + (b - a);
  }

  function AllEvents(ntsk: nat, ncyc: nat, nalm: nat): set<Event> {
    TaskEvents(ntsk) + CycEvents(ncyc) + AlmEvents(nalm)
  }

  lemma UnionSize(a: set<Event>, b: set<Event>, c: set<Event>)
    ensures |a + b + c| <= |a| + |b| + |c|
  {
  }

  lemma AllEventsCount(ntsk: nat, ncyc: nat, nalm: nat)
    ensures |AllEvents(ntsk, ncyc, nalm)| <= ntsk + ncyc + nalm
  {
    TaskEventsCount(ntsk);
    CycEventsCount(ncyc);
    AlmEventsCount(nalm);
    UnionSize(TaskEvents(ntsk), CycEvents(ncyc), AlmEvents(nalm));
  }

  lemma ArmedIsEvent(tcb: seq<Tcb>, cyc: seq<bool>, alm: seq<bool>, e: Event)
    requires Armed(tcb, cyc, alm, e)
    ensures e in AllEvents(|tcb|, |cyc|, |alm|)
  {
  }

  /** There are never more time events than tasks and handlers. */
  lemma FewTimers(tcb: seq<Tcb>, cyc: seq<bool>, alm: seq<bool>, pending: map<Event, Pending>)
    requires TimersOk(tcb, cyc, alm, pending)
    ensures |pending| <= |tcb| + |cyc| + |alm|
  {
    hide AllEvents;
    forall e | e in pending
      ensures e in AllEvents(|tcb|, |cyc|, |alm|)
    {
      ArmedIsEvent(tcb, cyc, alm, e);
    }
    AllEventsCount(|tcb|, |cyc|, |alm|);
    SubsetSize(pending.Keys, AllEvents(|tcb|, |cyc|, |alm|));
    assert |pending| == |pending.Keys|;
  }

  /** The heap has room for any time event that is not registered yet. */
  lemma RoomFor(s: State, e: Event)
    requires CoreOk(s) && e !in s.pending
    requires e in AllEvents(|s.tcb|, |s.cyc|, |s.alm|)
    ensures |s.pending| < |s.cfg.ipriority| + |s.cfg.cyctim| + s.cfg.nalm
  {
    hide AllEvents, QueuesOk, Sorted, ClockOk;
    var all := AllEvents(|s.tcb|, |s.cyc|, |s.alm|);
    forall x | x in s.pending
      ensures x in all
    {
      ArmedIsEvent(s.tcb, s.cyc, s.alm, x);
    }
    AllEventsCount(|s.tcb|, |s.cyc|, |s.alm|);
    SubsetSize(s.pending.Keys, all - {e});
    assert |all - {e}| == |all| - 1;
    assert |s.pending| == |s.pending.Keys|;
  }
}
