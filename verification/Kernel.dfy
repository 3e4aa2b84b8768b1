/**
 The kernel's variables: task control blocks, queues, the priority bitmap and the best
 task, the dispatching flags, the handlers' control blocks and the time events.
 */
module Kernels {
  import opened Common
  import opened WordTime
  import opened HeapLinks
  import opened TimeEvent
  import opened KernelState
  import opened ReadyQueue

  class Kernel {
    const cfg: Config
    const tm: TimeEvents
    var tcb: seq<Tcb>
    var queue: map<QName, seq<TaskId>>  // ready_queue[], and the wait queues of all objects
    var readyPrimap: bv16
    var schedtsk: Option<TaskId>
    var runtsk: Option<TaskId>
    var reqflg: bool
    var ipmflg: bool
    var disdsp: bool
    var dspflg: bool
    var intctx: bool
    var cycsta: seq<bool>
    var evttim: seq<nat>  // of the cyclic handlers, as words
    var almsta: seq<bool>
    ghost var ticking: bool

    /** The bitmap and the best task mirror the ready queues. */
    ghost predicate SchedRep()
      reads `queue, `readyPrimap, `schedtsk
    {
      && HasReady(queue)
      && Mirrors(readyPrimap, queue)
      && schedtsk == Sched(queue)
    }

    /** evttim of a running cyclic handler is the time it is registered for. */
    ghost predicate CycRep()
      reads `cycsta, `evttim, tm`pending
    {
      && |evttim| == |cycsta|
      && cfg.time.Ok()
      && forall c: nat :: c < |cycsta| && CycTimer(c) in tm.pending ==>
        evttim[c] == Word(tm.pending[CycTimer(c)].time, cfg.time.w)
    }

    /** The scheduler's part, with tasks in the ready queue of their priority. */
    ghost predicate Scheduling()
      reads `queue, `readyPrimap, `schedtsk, `tcb
    {
      SchedRep() && PriOk(queue, tcb)
    }

    /** The part of the time events. */
    ghost predicate Timing()
      reads `cycsta, `evttim, tm, tm.heap
    {
      && CycRep()
      && tm.Valid() && tm.cfg == cfg.time
      && tm.heap.Length == |cfg.ipriority| + |cfg.cyctim| + cfg.nalm
    }

    /** The variables represent a kernel state. */
    ghost predicate Rep()
      reads this, tm, tm.heap
    {
      SchedRep() && Timing()
    }

    /** The variables before initialisation, and an empty time event heap. */
    constructor (cfg: Config)
      requires cfg.Ok()
      ensures this.cfg == cfg && tm.cfg == cfg.time && fresh(tm) && fresh(tm.heap)
      ensures tm.heap.Length == |cfg.ipriority| + |cfg.cyctim| + cfg.nalm
      ensures tm.Valid() && tm.pending == map[] && tm.ticks == 0 && tm.min == 0
      ensures |tcb| == |cfg.ipriority| && |cycsta| == |evttim| == |cfg.cyctim| && |almsta| == cfg.nalm
      ensures forall t :: 0 <= t < |tcb| ==> tcb[t] == Tcb(TS_DORMANT, 0, false, false, Wercd(E_OK), 0)
      ensures forall a :: 0 <= a < |almsta| ==> !almsta[a]
      ensures queue == map q | q in QueueNames(cfg) :: []
      ensures !intctx && !ticking
    {
      this.cfg := cfg;
      tm := new TimeEvents(cfg.time, |cfg.ipriority| + |cfg.cyctim| + cfg.nalm, Node(0, TaskTimer(0)));
      tcb := seq(|cfg.ipriority|, _ => Tcb(TS_DORMANT, 0, false, false, Wercd(E_OK), 0));
      queue := map q | q in QueueNames(cfg) :: [];
      cycsta, evttim, almsta := seq(|cfg.cyctim|, _ => false), seq(|cfg.cyctim|, _ => 0), seq(cfg.nalm, _ => false);
      readyPrimap, schedtsk, runtsk := 0, None, None;
      reqflg, ipmflg, disdsp, dspflg, intctx, ticking := false, false, false, false, false, false;
    }

    /** The kernel state that the variables represent. */
    ghost function View(): State
      reads this, tm
    {
      State(cfg, tcb, queue, cycsta, almsta, tm.pending, tm.ticks, tm.min, ticking,
            runtsk, reqflg, ipmflg, disdsp, dspflg, intctx)
    }
  }
}
