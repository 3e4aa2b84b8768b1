/**
 The kernel's state as a value, and its invariant. The value holds no cached data: the
 bitmap, the best task and the heap layout belong to the classes that refine it.
 */
module KernelState {
  import opened Common
  import opened HeapLinks
  import opened SystemTime

  const TNUM_TPRI := 16

  type TaskId = nat

  datatype Ercd = E_OK | E_CTX | E_ID | E_PAR | E_OBJ | E_ILUSE | E_QOVR | E_TMOUT | E_RLWAI | E_DLT

  // Wait causes, as numbered in task.h: TS_WAIT_??? >> 3
  const DLY := 0
  const SLP := 1
  const RDTQ := 2
  const RPDQ := 3
  const SEM := 4
  const FLG := 5
  const SDTQ := 6
  const SPDQ := 7
  const MBX := 8
  const MPF := 9

  /** The bits of the task state byte. */
  datatype Tstat = Tstat(runnable: bool, waiting: bool, suspended: bool, cause: nat) {
    predicate Dormant() { this == TS_DORMANT }
    /** TSTAT_WAIT_SLP. */
    predicate WaitSlp() { cause == SLP }
    /** TSTAT_WAIT_WOBJ: linked in the wait queue of some object. */
    predicate WaitWobj() { cause >= RDTQ }
    /** TSTAT_WAIT_WOBJCB: linked in the first wait queue of an object. */
    predicate WaitWobjcb() { cause >= SEM }
  }

  const TS_DORMANT := Tstat(false, false, false, DLY)
  const TS_RUNNABLE := Tstat(true, false, false, DLY)
  const TS_SUSPENDED := Tstat(false, false, true, DLY)

  function TsWaiting(cause: nat): Tstat {
    Tstat(false, true, false, cause)
  }

  /** The queues a task can be linked in: the ready queue of a priority, or the wait queue
      of an object, which tasks wait in for one cause only. */
  datatype QName = Ready(pri: nat) | Wait(cause: nat, id: nat)

  /** WINFO, a union: the timer while the task waits, the error code when it no longer does. */
  datatype Winfo = Tmevtb(event: Option<Event>) | Wercd(ercd: Ercd)

  /** TCB; `wobj` is the number of the object that p_winfo->p_wobjcb points to. */
  datatype Tcb = Tcb(tstat: Tstat, priority: nat, actque: bool, wupque: bool, winfo: Winfo, wobj: nat)

  /** What the configurator generates. */
  datatype Config = Config(
    time: TimeConfig,
    ipriority: seq<nat>,    // initial task priorities
    queues: set<QName>,     // the wait queues of all objects
    tpri: set<QName>,       // those in task priority order
    cyctim: seq<nat>,       // periods of the cyclic handlers
    cycphs: seq<nat>,       // phases of the cyclic handlers
    nalm: nat)              // number of alarm handlers
  {
    ghost predicate Ok() {
      && time.Ok()
      && (forall t :: 0 <= t < |ipriority| ==> ipriority[t] < TNUM_TPRI)
      && (forall q :: q in queues ==> q.Wait? && RDTQ <= q.cause <= MPF)
      && (forall q :: q in tpri ==> q in queues && q.cause >= SEM)
      && |cyctim| == |cycphs|
      && (forall c :: 0 <= c < |cyctim| ==> 0 < cyctim[c] <= time.tmax && cycphs[c] <= time.tmax)
    }
  }

  /** All queues there are. */
  function QueueNames(cfg: Config): set<QName> {
    (set p: nat | p < TNUM_TPRI :: Ready(p)) + cfg.queues
  }

  datatype State = State(
    cfg: Config,
    tcb: seq<Tcb>,
    queue: map<QName, seq<TaskId>>,
    cyc: seq<bool>,                 // cycsta of the cyclic handlers
    alm: seq<bool>,                 // almsta of the alarm handlers
    pending: map<Event, Pending>,   // the registered time events
    ticks: nat,                     // number of ticks so far
    min: nat,                       // min_time
    ticking: bool,                  // signal_time is under way
    runtsk: Option<TaskId>,
    reqflg: bool,
    ipmflg: bool,
    disdsp: bool,
    dspflg: bool,
    intctx: bool)                   // an interrupt handler is running

  /** The queue a task must be linked in, by its own control block. */
  function Home(c: Tcb): Option<QName> {
    if c.tstat.runnable then Some(Ready(c.priority))
    else if c.tstat.waiting && c.tstat.WaitWobj() then Some(Wait(c.tstat.cause, c.wobj))
    else None
  }

  /** The head of the first non-empty ready queue from priority `p` on. */
  function BestFrom(queue: map<QName, seq<TaskId>>, p: nat): Option<TaskId>
    decreases TNUM_TPRI - p
  {
    if p >= TNUM_TPRI then None
    else if Ready(p) in queue && queue[Ready(p)] != [] then Some(queue[Ready(p)][0])
    else BestFrom(queue, p + 1)
  }

  /** The task that should run: the head of the lowest-numbered non-empty ready queue. */
  function Sched(queue: map<QName, seq<TaskId>>): Option<TaskId> {
    BestFrom(queue, 0)
  }

  /** Each task is in exactly the queue its state says, once. */
  ghost predicate QueuesOk(tcb: seq<Tcb>, queue: map<QName, seq<TaskId>>) {
    && (forall q :: q in queue ==> NoDup(queue[q]))
    && (forall q, t: int {:trigger t in queue[q]} :: q in queue && t in queue[q] ==> 0 <= t < |tcb| && Home(tcb[t]) == Some(q))
    && (forall t :: 0 <= t < |tcb| && Home(tcb[t]).Some? ==>
      Home(tcb[t]).value in queue && t in queue[Home(tcb[t]).value])
  }

  /** Tasks in queue order have non-decreasing priority numbers. */
  ghost predicate Sorted(q: seq<TaskId>, tcb: seq<Tcb>) {
    && (forall i :: 0 <= i < |q| ==> q[i] < |tcb|)
    && forall i, j :: 0 <= i < j < |q| ==> tcb[q[i]].priority <= tcb[q[j]].priority
  }

  /** The state bits of one task fit together. */
  ghost predicate TaskOk(cfg: Config, t: TaskId, c: Tcb)
    requires t < |cfg.ipriority|
  {
    && c.priority < TNUM_TPRI
    && (c.tstat.runnable ==> !c.tstat.waiting && !c.tstat.suspended)
    && (!c.tstat.waiting ==> c.tstat.cause == 0)
    && (c.tstat.Dormant() ==> !c.actque && !c.wupque && c.priority == cfg.ipriority[t])
    && (c.tstat.waiting ==>
      && c.winfo.Tmevtb? && (c.winfo.event == None || c.winfo.event == Some(TaskTimer(t)))
      && (c.tstat.cause == DLY ==> c.winfo.event.Some?)
      && (c.tstat.cause == SLP ==> !c.wupque)
      && (c.tstat.WaitWobj() ==> Wait(c.tstat.cause, c.wobj) in cfg.queues))
  }

  /** Must the time event `e` be registered? */
  predicate Armed(tcb: seq<Tcb>, cyc: seq<bool>, alm: seq<bool>, e: Event) {
    match e
    case TaskTimer(t) => t < |tcb| && tcb[t].tstat.waiting && tcb[t].winfo == Tmevtb(Some(e))
    case CycTimer(c) => c < |cyc| && cyc[c]
    case AlmTimer(a) => a < |alm| && alm[a]
  }

  /** The callback `e` must be registered with. */
  function CallbackOf(tcb: seq<Tcb>, e: Event): Callback {
    match e
    case TaskTimer(t) => if t < |tcb| && tcb[t].tstat.cause == DLY then WaitTmoutOk(t) else WaitTmout(t)
    case CycTimer(c) => CallCychdr(c)
    case AlmTimer(a) => CallAlmhdr(a)
  }

  /** The heap holds one node for each task waiting with a timeout, each running cyclic
      handler and each running alarm handler, and no other. */
  ghost predicate TimersOk(tcb: seq<Tcb>, cyc: seq<bool>, alm: seq<bool>, pending: map<Event, Pending>) {
    && (forall e :: e in pending <==> Armed(tcb, cyc, alm, e))
    && (forall e :: e in pending ==> pending[e].callback == CallbackOf(tcb, e))
  }

  /** Registered times are within reach of the base time, and due only while a tick is processed. */
  ghost predicate ClockOk(s: State)
    requires s.cfg.time.Ok()
  {
    var cur := TickTime(s.cfg.time, s.ticks);
    && s.min <= cur <= s.min + s.cfg.time.nume / s.cfg.time.deno + 1
    && (!s.ticking ==> s.min == cur)
    && (s.ticking ==> s.intctx)
    && forall e :: e in s.pending ==>
      && s.min <= s.pending[e].time <= BaseTime(s.cfg.time, s.ticks) + s.cfg.time.tmax
      && (!s.ticking && s.ticks > 0 ==> cur < s.pending[e].time)
  }

  ghost predicate ShapeOk(s: State) {
    && s.cfg.Ok()
    && |s.tcb| == |s.cfg.ipriority| && |s.cyc| == |s.cfg.cyctim| && |s.alm| == s.cfg.nalm
    && (forall q :: q in s.queue <==> (q.Ready? && q.pri < TNUM_TPRI) || q in s.cfg.queues)
  }

  /** Everything but the dispatching flags. */
  ghost predicate CoreOk(s: State) {
    && ShapeOk(s)
    && QueuesOk(s.tcb, s.queue)
    && (forall q :: q in s.cfg.tpri ==> Sorted(s.queue[q], s.tcb))
    && (forall t :: 0 <= t < |s.tcb| ==> TaskOk(s.cfg, t, s.tcb[t]))
    && TimersOk(s.tcb, s.cyc, s.alm, s.pending)
    && ClockOk(s)
  }

  /** The dispatching flags, outside and inside of interrupt handlers. */
  ghost predicate DispatchOk(s: State) {
    && (s.dspflg <==> s.ipmflg && !s.disdsp)
    && (s.runtsk.Some? ==> s.runtsk.value < |s.tcb| && s.tcb[s.runtsk.value].tstat.runnable)
    && (s.runtsk.None? ==> s.dspflg)
    && (!s.intctx ==> !s.reqflg)
    && (s.dspflg && s.runtsk != Sched(s.queue) ==> s.intctx && s.reqflg)
  }

  ghost predicate Inv(s: State) {
    CoreOk(s) && DispatchOk(s)
  }
}
