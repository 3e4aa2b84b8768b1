/**
 The wait queue parts of wait.h.
 */
module WaitQueue {
  import opened Common
  import opened KernelState
  import opened KernelQueues
  import opened Kernels
  import S = KernelSpec

  /** queue_insert_tpri: `t` goes before the first task that is worse. */
  method QueueInsertTpri(k: Kernel, q: QName, t: TaskId)
    requires q in k.queue && t < |k.tcb| && Sorted(k.queue[q], k.tcb)
    modifies k`queue
    ensures k.queue == old(k.queue)[q := S.InsertTpri(old(k.queue)[q], t, k.tcb)]
  {
    var pri := k.tcb[t].priority;
    var s := k.queue[q];
    InsertTpriStable(s, t, k.tcb);
    var entry := 0;
    while entry < |s|
      invariant 0 <= entry <= TpriPosition(s, t, k.tcb)
    {
      if pri < k.tcb[s[entry]].priority {
        break;
      }
      entry := entry + 1;
    }
    k.queue := k.queue[q := s[..entry] + [t] + s[entry..]];
  }

  /** wobj_change_priority: `t`, whose priority has changed, finds its new place in a
      priority-ordered wait queue. */
  method WobjChangePriority(k: Kernel, q: QName, t: TaskId)
    requires q in k.queue && t < |k.tcb|
    requires q in k.cfg.tpri ==> Sorted(Remove(k.queue[q], t), k.tcb)
    modifies k`queue
    ensures k.queue == if q in k.cfg.tpri
      then old(k.queue)[q := S.InsertTpri(Remove(old(k.queue)[q], t), t, k.tcb)] else old(k.queue)
  {
    hide Sorted, S.InsertTpri, Remove;
    if q in k.cfg.tpri {
      k.queue := k.queue[q := Remove(k.queue[q], t)];
      QueueInsertTpri(k, q, t);
    }
  }
}
