/**
 rel_mpf as it is: its checks are made with the CPU unlocked, so that anything may come between
 them and the locked part. When that does harm, exactly.
 */
module LateReturns {
  import opened Common
  import opened KernelState
  import opened KernelRuns
  import opened ObjectSteps
  import opened WaitSteps
  import opened MemPools
  import S = KernelSpec

  /** How far a task is in rel_mpf: the address is below `unused`; or all checks have been passed,
      `grant` being the number of the block's grant at that moment, if it was granted. */
  datatype Checked = Bound(blk: nat) | Accepted(blk: nat, grant: Option<nat>)

  /** The holders of blocks, and the tasks that are in rel_mpf. */
  datatype Late = Late(l: Holders, pend: map<TaskId, Checked>)

  /** Any step that is no part of rel_mpf; or a part of it, made by the running task: the checks of
      the address, the check of the index array, and what follows under lock. The index array
      holds anything for blocks that are not in use: `stale` says whether it is INDEX_ALLOC. */
  datatype LateOp = Step(op: MpfOp) | CheckBound(blk: nat) | CheckAlloc(stale: bool) | Commit

  /** The grant of a block. */
  ghost function GrantOf(l: Holders, i: nat): (g: Option<nat>)
    ensures g.Some? ==> g.value in l.grants && l.grants[g.value].idx == i
    ensures g.None? ==> forall k :: k in l.grants ==> l.grants[k].idx != i
  {
    if k :| k in l.grants && l.grants[k].idx == i then Some(k) else None
  }

  /** The running task. */
  function Me(s: State): TaskId
    requires S.InTask(s)
  {
    s.runtsk.value
  }

  /** The pool and its holders are in order, and so are the notes of the tasks in rel_mpf. */
  ghost predicate LateOk(l: Late, c: MpfConfig) {
    && MpfOk(l.l.x, c) && HeldOnce(l.l) && c.blksz > 0
    && forall t :: t in l.pend ==> NoteOk(l.l, c, l.pend[t])
  }

  ghost predicate NoteOk(l: Holders, c: MpfConfig, n: Checked)
    requires c.blksz > 0
  {
    && Aligned(c, n.blk)
    && (n.Accepted? && n.grant.Some? ==>
      n.grant.value < l.next && (n.grant.value in l.grants ==> l.grants[n.grant.value].idx == Index(c, n.blk)))
  }

  ghost predicate LateEnabled(l: Late, c: MpfConfig, op: LateOp)
    requires LateOk(l, c)
  {
    match op
    case Step(op) => !op.Rel? && MpfEnabled(l.l.x, c, op)
    case CheckBound(_) => S.InTask(l.l.x.s)
    case CheckAlloc(_) => S.InTask(l.l.x.s) && Me(l.l.x.s) in l.pend && l.pend[Me(l.l.x.s)].Bound?
    case Commit => S.InTask(l.l.x.s) && Me(l.l.x.s) in l.pend && l.pend[Me(l.l.x.s)].Accepted?
  }

  /** The locked part of rel_mpf ends the grant that was found by the checks. */
  ghost function CommitDo(l: Holders, c: MpfConfig, n: Checked): Holders
    requires MpfOk(l.x, c) && S.InTask(l.x.s) && c.blksz > 0 && n.Accepted?
  {
    PoolFacts(l.x, c);
    Granted(l, c, CommitStep(l.x, c, n.blk),
            if n.grant.Some? then l.grants - {n.grant.value} else l.grants,
            if l.x.s.queue[c.q] != [] then Some((l.x.s.queue[c.q][0], n.blk)) else None)
  }

  ghost function LateDo(l: Late, c: MpfConfig, op: LateOp): Late
    requires LateOk(l, c) && LateEnabled(l, c, op)
  {
    match op
    case Step(op) => l.(l := HoldersDo(l.l, c, op))
    case CheckBound(blk) =>
      var t := Me(l.l.x.s);
      l.(pend := if Aligned(c, blk) && Index(c, blk) < l.l.x.pool.unused then l.pend[t := Bound(blk)] else l.pend - {t})
    case CheckAlloc(stale) =>
      var t := Me(l.l.x.s);
      var blk := l.pend[t].blk;
      var i := Index(c, blk);
      l.(pend := if (if i < l.l.x.pool.unused then Allocated(l.l.x.pool, i) else stale)
                 then l.pend[t := Accepted(blk, GrantOf(l.l, i))] else l.pend - {t})
    case Commit =>
      var t := Me(l.l.x.s);
      Late(CommitDo(l.l, c, l.pend[t]), l.pend - {t})
  }

  // ----- one step -----

  /** The grant found by the checks still stands. */
  ghost predicate Stands(l: Late, c: MpfConfig, op: LateOp)
    requires LateOk(l, c) && LateEnabled(l, c, op)
  {
    op.Commit? ==>
      var n := l.pend[Me(l.l.x.s)];
      n.grant.Some? && n.grant.value in l.l.grants
  }

  lemma NotOfIs(l: Holders, g: nat)
    requires HeldOnce(l) && g in l.grants
    ensures NotOf(l.grants, l.grants[g].idx) == l.grants - {g}
  {
    hide Allocated;
  }

  /** A commit for a grant that stands keeps everything in order. */
  lemma CommitHolds(l: Holders, c: MpfConfig, n: Checked)
    requires MpfOk(l.x, c) && HeldOnce(l) && S.InTask(l.x.s) && c.blksz > 0 && n.Accepted? && NoteOk(l, c, n)
    requires n.grant.Some? && n.grant.value in l.grants
    ensures MpfOk(CommitDo(l, c, n).x, c) && HeldOnce(CommitDo(l, c, n))
  {
    hide MpfOk, HeldOnce, CommitStep, Allocated, Index, Handed;
    var i := Index(c, n.blk);
    PoolFacts(l.x, c);
    GrantAllocated(l, n.grant.value);
    NotOfIs(l, n.grant.value);
    CommitKeeps(l.x, c, n.blk);
    CommitPool(l.x, c, n.blk);
    if l.x.s.queue[c.q] == [] {
      ReturnKeepsHeld(l, c, i, CommitStep(l.x, c, n.blk));
    } else {
      PassKeepsHeld(l, i, CommitStep(l.x, c, n.blk), l.x.s.queue[c.q][0]);
    }
  }

  lemma GrantAllocated(l: Holders, g: nat)
    requires HeldOnce(l) && g in l.grants
    ensures Allocated(l.x.pool, l.grants[g].idx) && g < l.next
  {
    hide Allocated;
  }

  lemma CommitPool(x: MpfState, c: MpfConfig, blk: nat)
    requires MpfOk(x, c) && S.InTask(x.s) && c.blksz > 0
    ensures c.q in x.s.queue
    ensures CommitStep(x, c, blk).pool ==
      if x.s.queue[c.q] == [] then Pool([Index(c, blk)] + x.pool.freelist, x.pool.unused) else x.pool
  {
    hide MpfOk, HandOver, Index;
    PoolFacts(x, c);
    if x.s.queue[c.q] != [] {
      HandedTasks(x, c);
    }
  }

  lemma HandedTasks(x: MpfState, c: MpfConfig)
    requires MpfOk(x, c)
    ensures c.q in x.s.queue && S.AllTasks(x.s.queue[c.q], |x.s.tcb|)
  {
    hide Inv, PoolOk;
  }

  /** A commit for a grant that no longer stands does not, even if the block is in use again. */
  lemma CommitFails(l: Holders, c: MpfConfig, n: Checked)
    requires MpfOk(l.x, c) && HeldOnce(l) && S.InTask(l.x.s) && c.blksz > 0 && n.Accepted? && NoteOk(l, c, n)
    requires n.grant.Some? ==> n.grant.value !in l.grants
    ensures !(PoolOk(CommitDo(l, c, n).x.pool, c) && HeldOnce(CommitDo(l, c, n)))
  {
    hide MpfOk, CommitStep, Allocated, Index, PoolOk;
    var l' := CommitDo(l, c, n);
    var i := Index(c, n.blk);
    CommitPool(l.x, c, n.blk);
    if l.x.s.queue[c.q] != [] {
      assert l'.grants[l.next].idx == i;
      if Allocated(l.x.pool, i) {
        var k :| k in l.grants && l.grants[k].idx == i;
        TwoGrants(l', k, l.next);
      } else {
        VoidGrant(l', l.next);
      }
    } else if PoolOk(l'.x.pool, c) {
      LatePut(l.x.pool, c, i);
      var k :| k in l.grants && l.grants[k].idx == i;
      VoidGrant(l', k);
    }
  }

  lemma TwoGrants(l: Holders, k1: nat, k2: nat)
    requires k1 in l.grants && k2 in l.grants && k1 != k2 && l.grants[k1].idx == l.grants[k2].idx
    ensures !HeldOnce(l)
  {
  }

  lemma VoidGrant(l: Holders, k: nat)
    requires k in l.grants && !Allocated(l.x.pool, l.grants[k].idx)
    ensures !HeldOnce(l)
  {
    hide Allocated;
  }

  /** A free list that has got the block `i` is in order only if `i` was in use; and then it no
      longer is. */
  lemma LatePut(p: Pool, c: MpfConfig, i: nat)
    requires PoolOk(Pool([i] + p.freelist, p.unused), c)
    ensures Allocated(p, i) && !Allocated(Pool([i] + p.freelist, p.unused), i)
  {
    var f := [i] + p.freelist;
    assert f[0] == i;
    forall k | 0 <= k < |p.freelist|
      ensures p.freelist[k] != i
    {
      assert f[k + 1] == p.freelist[k] && f[0] != f[k + 1];
    }
  }

  /** The locked part of rel_mpf keeps the pool in order, with one holder for each block, if and
      only if the grant that the checks have found still stands. */
  lemma CommitKeepsIff(l: Late, c: MpfConfig)
    requires LateOk(l, c) && LateEnabled(l, c, Commit)
    ensures var l' := LateDo(l, c, Commit).l;
      PoolOk(l'.x.pool, c) && HeldOnce(l') <==> Stands(l, c, Commit)
  {
    hide MpfOk, HeldOnce, CommitDo;
    var n := l.pend[Me(l.l.x.s)];
    if Stands(l, c, Commit) {
      CommitHolds(l.l, c, n);
      PoolFacts(CommitDo(l.l, c, n).x, c);
    } else {
      CommitFails(l.l, c, n);
    }
  }

  /** Notes stay in order: grants do not change, and their numbers are not used again. */
  lemma NotesStay(l: Holders, c: MpfConfig, l': Holders, n: Checked)
    requires c.blksz > 0 && NoteOk(l, c, n) && Onward(l, l')
    ensures NoteOk(l', c, n)
  {
    hide Index;
  }

  /** From `l` to `l'` grants end and are made, but do not change. */
  ghost predicate Onward(l: Holders, l': Holders) {
    l.next <= l'.next && forall k :: k in l'.grants && k < l.next ==> k in l.grants && l'.grants[k] == l.grants[k]
  }

  lemma StepOnward(l: Holders, c: MpfConfig, op: MpfOp)
    requires MpfOk(l.x, c) && MpfEnabled(l.x, c, op) && HeldOnce(l)
    ensures Onward(l, HoldersDo(l, c, op))
  {
    hide MpfOk, MpfEnabled, MpfDo, Index, Handed, HeldOnce;
    PoolFacts(l.x, c);
  }

  lemma LateStepKeeps(l: Late, c: MpfConfig, op: LateOp)
    requires LateOk(l, c) && LateEnabled(l, c, op) && Stands(l, c, op)
    ensures LateOk(LateDo(l, c, op), c) && Onward(l.l, LateDo(l, c, op).l)
  {
    hide MpfOk, HeldOnce, MpfEnabled, HoldersDo, CommitDo, NoteOk;
    var l' := LateDo(l, c, op);
    match op
    case Step(op) =>
      HoldersStep(l.l, c, op);
      StepOnward(l.l, c, op);
      NotesKept(l, c, l');
    case CheckBound(blk) =>
      if Aligned(c, blk) {
        NewNote(l.l, c, Bound(blk));
      }
    case CheckAlloc(stale) =>
      AcceptedNote(l, c);
    case Commit =>
      var n := l.pend[Me(l.l.x.s)];
      CommitHolds(l.l, c, n);
      CommitOnward(l.l, c, n);
      NotesKept(l, c, l');
  }

  lemma NotesKept(l: Late, c: MpfConfig, l': Late)
    requires LateOk(l, c) && Onward(l.l, l'.l) && forall t :: t in l'.pend ==> t in l.pend && l'.pend[t] == l.pend[t]
    ensures forall t :: t in l'.pend ==> NoteOk(l'.l, c, l'.pend[t])
  {
    hide MpfOk, HeldOnce, NoteOk, Onward;
    forall t | t in l'.pend
      ensures NoteOk(l'.l, c, l'.pend[t])
    {
      NotesStay(l.l, c, l'.l, l.pend[t]);
    }
  }

  lemma NewNote(l: Holders, c: MpfConfig, n: Checked)
    requires c.blksz > 0 && Aligned(c, n.blk) && n.Bound?
    ensures NoteOk(l, c, n)
  {
  }

  /** When a block passes the last check, its grant is noted; there is none if and only if the
      address is no longer below `unused`. */
  lemma AcceptedNote(l: Late, c: MpfConfig)
    requires LateOk(l, c) && LateEnabled(l, c, CheckAlloc(true))
    ensures var blk := l.pend[Me(l.l.x.s)].blk;
      var i := Index(c, blk);
      var g := GrantOf(l.l, i);
      && NoteOk(l.l, c, Accepted(blk, g)) && (g.Some? <==> Allocated(l.l.x.pool, i))
      && (g.None? && i < l.l.x.pool.unused ==> !Allocated(l.l.x.pool, i))
  {
    hide MpfOk, Allocated, Index, Aligned;
  }

  lemma CommitOnward(l: Holders, c: MpfConfig, n: Checked)
    requires MpfOk(l.x, c) && S.InTask(l.x.s) && c.blksz > 0 && n.Accepted?
    ensures Onward(l, CommitDo(l, c, n))
  {
    hide MpfOk, CommitStep, Index;
    PoolFacts(l.x, c);
  }

  // ----- from the checks to the locked part -----

  /** A run in which every commit so far was for a grant that stood. */
  ghost predicate LateRun(l: Late, c: MpfConfig, ops: seq<LateOp>, l': Late)
    decreases |ops|
  {
    if ops == [] then l == l'
    else LateOk(l, c) && LateEnabled(l, c, ops[0]) && Stands(l, c, ops[0]) && LateRun(LateDo(l, c, ops[0]), c, ops[1..], l')
  }

  /** Is the step a part of rel_mpf that `t` makes? */
  predicate PartOf(l: Late, op: LateOp, t: TaskId) {
    !op.Step? && S.InTask(l.l.x.s) && Me(l.l.x.s) == t
  }

  /** `t` waits for the processor in the middle of rel_mpf. */
  ghost predicate Preempted(l: Late, c: MpfConfig, ops: seq<LateOp>, t: TaskId)
    decreases |ops|
  {
    ops == [] ||
    (LateOk(l, c) && LateEnabled(l, c, ops[0]) && !PartOf(l, ops[0], t) && Preempted(LateDo(l, c, ops[0]), c, ops[1..], t))
  }

  /** Is the block `i` returned in the step, by anybody, or the pool initialised? */
  ghost predicate EndsGrant(l: Late, c: MpfConfig, op: LateOp, i: nat)
    requires LateOk(l, c) && LateEnabled(l, c, op)
  {
    match op
    case Step(op) => op.Ini? && S.InTask(l.l.x.s)
    case Commit => Index(c, l.pend[Me(l.l.x.s)].blk) == i
    case _ => false
  }

  ghost predicate Interferes(l: Late, c: MpfConfig, ops: seq<LateOp>, i: nat)
    decreases |ops|
  {
    ops != [] && LateOk(l, c) && LateEnabled(l, c, ops[0]) &&
    (EndsGrant(l, c, ops[0], i) || Interferes(LateDo(l, c, ops[0]), c, ops[1..], i))
  }

  /** A grant ends in a step if and only if that returns its block or initialises the pool. */
  lemma GrantEndsIff(l: Late, c: MpfConfig, op: LateOp, g: nat)
    requires LateOk(l, c) && LateEnabled(l, c, op) && Stands(l, c, op) && g in l.l.grants
    ensures g !in LateDo(l, c, op).l.grants <==> EndsGrant(l, c, op, l.l.grants[g].idx)
    ensures g in LateDo(l, c, op).l.grants ==> LateDo(l, c, op).l.grants[g] == l.l.grants[g]
  {
    hide MpfOk, MpfEnabled, HoldersDo, CommitStep, Index, Allocated, Aligned;
    match op
    case Step(op) => GrantEnds(l.l, c, op, g);
    case Commit =>
      var n := l.pend[Me(l.l.x.s)];
      PoolFacts(l.l.x, c);
      assert NoteOk(l.l, c, n);
    case _ =>
  }

  lemma PendStays(l: Late, c: MpfConfig, op: LateOp, t: TaskId)
    requires LateOk(l, c) && LateEnabled(l, c, op) && !PartOf(l, op, t) && t in l.pend
    ensures t in LateDo(l, c, op).pend && LateDo(l, c, op).pend[t] == l.pend[t]
  {
    hide MpfOk, HeldOnce, NoteOk, MpfEnabled, HoldersDo, CommitDo, Index, Allocated, Aligned;
  }

  /** What a grant that the checks have found comes to until the locked part. */
  lemma {:induction false} GrantOverRun(l: Late, c: MpfConfig, ops: seq<LateOp>, l': Late, t: TaskId)
    requires LateOk(l, c) && LateRun(l, c, ops, l') && Preempted(l, c, ops, t)
    requires t in l.pend && l.pend[t].Accepted? && l.pend[t].grant.Some?
    ensures LateOk(l', c) && t in l'.pend && l'.pend[t] == l.pend[t]
    ensures var g := l.pend[t].grant.value;
      if g in l.l.grants then g in l'.l.grants <==> !Interferes(l, c, ops, Index(c, l.pend[t].blk)) else g !in l'.l.grants
    decreases |ops|
  {
    hide MpfOk, HeldOnce, LateEnabled, LateDo, Stands, EndsGrant, Index, PartOf, Aligned;
    var g := l.pend[t].grant.value;
    assert NoteOk(l.l, c, l.pend[t]);
    if ops != [] {
      var l1 := LateDo(l, c, ops[0]);
      LateStepKeeps(l, c, ops[0]);
      PendStays(l, c, ops[0], t);
      if g in l.l.grants {
        GrantEndsIff(l, c, ops[0], g);
      }
      GrantOverRun(l1, c, ops[1..], l', t);
    }
  }

  lemma {:induction false} PendOverRun(l: Late, c: MpfConfig, ops: seq<LateOp>, l': Late, t: TaskId)
    requires LateOk(l, c) && LateRun(l, c, ops, l') && Preempted(l, c, ops, t) && t in l.pend
    ensures LateOk(l', c) && t in l'.pend && l'.pend[t] == l.pend[t]
    decreases |ops|
  {
    hide LateOk, LateEnabled, LateDo, Stands, PartOf;
    if ops != [] {
      LateStepKeeps(l, c, ops[0]);
      PendStays(l, c, ops[0], t);
      PendOverRun(LateDo(l, c, ops[0]), c, ops[1..], l', t);
    }
  }

  /** Whatever other tasks and interrupt handlers do between the checks of rel_mpf and its locked
      part: the locked part keeps the pool in order, with one holder for each block, if and only
      if the block was in use when it passed the checks, and has neither been returned since nor
      has the pool been initialised. It does not help if the block has been got again. */
  lemma LateReturnIff(l: Late, c: MpfConfig, ops: seq<LateOp>, l': Late, t: TaskId)
    requires LateOk(l, c) && LateRun(l, c, ops, l') && Preempted(l, c, ops, t)
    requires t in l.pend && l.pend[t].Accepted? && (l.pend[t].grant.Some? ==> l.pend[t].grant.value in l.l.grants)
    requires S.InTask(l'.l.x.s) && Me(l'.l.x.s) == t
    ensures LateOk(l', c) && LateEnabled(l', c, Commit)
    ensures var after := LateDo(l', c, Commit).l;
      PoolOk(after.x.pool, c) && HeldOnce(after) <==> l.pend[t].grant.Some? && !Interferes(l, c, ops, Index(c, l.pend[t].blk))
  {
    hide LateRun, Preempted, Interferes, MpfOk, HeldOnce, NoteOk, PoolOk, Index, CommitDo;
    PendOverRun(l, c, ops, l', t);
    if l.pend[t].grant.Some? {
      GrantOverRun(l, c, ops, l', t);
    }
    CommitKeepsIff(l', c);
  }

  /** Was the pool initialised? */
  ghost predicate Initialised(l: Late, c: MpfConfig, ops: seq<LateOp>)
    decreases |ops|
  {
    ops != [] && LateOk(l, c) && LateEnabled(l, c, ops[0]) &&
    ((ops[0].Step? && ops[0].op.Ini? && S.InTask(l.l.x.s)) || Initialised(LateDo(l, c, ops[0]), c, ops[1..]))
  }

  /** `unused` grows unless the pool is initialised. */
  lemma UnusedGrows(l: Late, c: MpfConfig, op: LateOp)
    requires LateOk(l, c) && LateEnabled(l, c, op) && !(op.Step? && op.op.Ini? && S.InTask(l.l.x.s))
    ensures l.l.x.pool.unused <= LateDo(l, c, op).l.x.pool.unused
  {
    hide MpfOk, Enabled, Foreign, Do, HandOver, S.WaitOn, S.EndWaits, GoodBlock, Index, Allocated, Aligned, HeldOnce, NoteOk, Handed;
    PoolFacts(l.l.x, c);
    match op
    case Commit => CommitPool(l.l.x, c, l.pend[Me(l.l.x.s)].blk);
    case _ =>
  }

  /** Without an initialisation between the checks, a block that passes both of them is in use. */
  lemma {:induction false} ChecksAgree(l: Late, c: MpfConfig, ops: seq<LateOp>, l': Late, t: TaskId)
    requires LateOk(l, c) && LateRun(l, c, ops, l') && Preempted(l, c, ops, t) && !Initialised(l, c, ops)
    requires t in l.pend && l.pend[t].Bound? && Index(c, l.pend[t].blk) < l.l.x.pool.unused
    requires S.InTask(l'.l.x.s) && Me(l'.l.x.s) == t
    ensures LateOk(l', c) && LateEnabled(l', c, CheckAlloc(true))
    ensures forall stale :: var pend := LateDo(l', c, CheckAlloc(stale)).pend;
      t in pend ==> pend[t].Accepted? && pend[t].grant.Some? && pend[t].grant.value in l'.l.grants
    decreases |ops|
  {
    hide MpfOk, HeldOnce, NoteOk, Index, Allocated, Aligned, MpfEnabled, HoldersDo, CommitDo;
    if ops == [] {
      AcceptedNote(l, c);
    } else {
      LateStepKeeps(l, c, ops[0]);
      PendStays(l, c, ops[0], t);
      UnusedGrows(l, c, ops[0]);
      ChecksAgree(LateDo(l, c, ops[0]), c, ops[1..], l', t);
    }
  }

  // ----- tasks that return only what they hold -----

  /** A task calls rel_mpf only for a block that it holds itself, and the pool is initialised only
      when no task is in rel_mpf. */
  ghost predicate Proper(l: Late, c: MpfConfig, op: LateOp)
    requires LateOk(l, c) && LateEnabled(l, c, op)
  {
    match op
    case CheckBound(blk) => Holds(l.l, Me(l.l.x.s), Index(c, blk))
    case Step(op) => op.Ini? ==> l.pend == map[]
    case _ => true
  }

  /** Whoever is in rel_mpf still holds the block that it returns. */
  ghost predicate Owners(l: Late, c: MpfConfig)
    requires c.blksz > 0
  {
    forall t :: t in l.pend ==> OwnNote(l.l, c, t, l.pend[t])
  }

  ghost predicate OwnNote(l: Holders, c: MpfConfig, t: TaskId, n: Checked)
    requires c.blksz > 0
  {
    match n
    case Bound(blk) => Holds(l, t, Index(c, blk))
    case Accepted(blk, grant) => grant.Some? && grant.value in l.grants && l.grants[grant.value] == Grant(Index(c, blk), t)
  }

  lemma OwnersStand(l: Late, c: MpfConfig, op: LateOp)
    requires LateOk(l, c) && LateEnabled(l, c, op) && Owners(l, c)
    ensures Stands(l, c, op)
  {
    hide MpfOk, HeldOnce, NoteOk, Index, Aligned, Holds, MpfEnabled;
    if op.Commit? {
      assert OwnNote(l.l, c, Me(l.l.x.s), l.pend[Me(l.l.x.s)]);
    }
  }

  /** A grant of `t` survives what others do. */
  lemma OwnNoteStays(l: Late, c: MpfConfig, op: LateOp, t: TaskId)
    requires LateOk(l, c) && LateEnabled(l, c, op) && Owners(l, c) && Proper(l, c, op) && t in l.pend && !PartOf(l, op, t)
    ensures OwnNote(LateDo(l, c, op).l, c, t, l.pend[t])
  {
    hide MpfOk, MpfEnabled, Index, Aligned, LateDo, HeldOnce;
    var l' := LateDo(l, c, op);
    OwnersStand(l, c, op);
    var n := l.pend[t];
    assert OwnNote(l.l, c, t, n);
    var g :| g in l.l.grants && l.l.grants[g] == Grant(Index(c, n.blk), t) && (n.Accepted? ==> n.grant == Some(g));
    GrantEndsIff(l, c, op, g);
    if op.Commit? {
      var u := Me(l.l.x.s);
      assert OwnNote(l.l, c, u, l.pend[u]);
      if Index(c, l.pend[u].blk) == Index(c, n.blk) {
        UniqueGrant(l.l, g, l.pend[u].grant.value);
      }
    }
    assert g in l'.l.grants && l'.l.grants[g] == l.l.grants[g];
  }

  lemma UniqueGrant(l: Holders, g: nat, h: nat)
    requires HeldOnce(l) && g in l.grants && h in l.grants && l.grants[g].idx == l.grants[h].idx
    ensures g == h
  {
    hide Allocated;
  }

  lemma ProperStepKeeps(l: Late, c: MpfConfig, op: LateOp)
    requires LateOk(l, c) && LateEnabled(l, c, op) && Owners(l, c) && Proper(l, c, op)
    ensures LateOk(LateDo(l, c, op), c) && Owners(LateDo(l, c, op), c)
  {
    hide MpfOk, MpfEnabled, HeldOnce, NoteOk, HoldersDo, CommitDo, Index, Aligned, OwnNote, Allocated;
    var l' := LateDo(l, c, op);
    OwnersStand(l, c, op);
    LateStepKeeps(l, c, op);
    forall t | t in l'.pend
      ensures OwnNote(l'.l, c, t, l'.pend[t])
    {
      if !PartOf(l, op, t) {
        OwnNoteStays(l, c, op, t);
      } else {
        OwnNext(l, c, op, t);
      }
    }
  }

  /** The task itself goes on in rel_mpf. */
  lemma OwnNext(l: Late, c: MpfConfig, op: LateOp, t: TaskId)
    requires LateOk(l, c) && LateEnabled(l, c, op) && Owners(l, c) && Proper(l, c, op) && PartOf(l, op, t) && t in LateDo(l, c, op).pend
    ensures OwnNote(LateDo(l, c, op).l, c, t, LateDo(l, c, op).pend[t])
  {
    hide MpfOk, HeldOnce, NoteOk, CommitDo, Index, Aligned, Allocated;
    if op.CheckAlloc? {
      assert OwnNote(l.l, c, t, l.pend[t]);
      var i := Index(c, l.pend[t].blk);
      var g :| g in l.l.grants && l.l.grants[g] == Grant(i, t);
      UniqueGrant(l.l, g, GrantOf(l.l, i).value);
    }
  }

  ghost predicate ProperRun(l: Late, c: MpfConfig, ops: seq<LateOp>, l': Late)
    decreases |ops|
  {
    if ops == [] then l == l'
    else LateOk(l, c) && LateEnabled(l, c, ops[0]) && Proper(l, c, ops[0]) && ProperRun(LateDo(l, c, ops[0]), c, ops[1..], l')
  }

  /** Used properly, the unlocked checks do no harm: whatever comes in between, the pool stays in
      order, no block has two holders, and nobody waits while a block is free. */
  lemma {:induction false} ProperUse(l: Late, c: MpfConfig, ops: seq<LateOp>, l': Late)
    requires LateOk(l, c) && Owners(l, c) && ProperRun(l, c, ops, l')
    ensures LateOk(l', c) && MpfOk(l'.l.x, c) && HeldOnce(l'.l)
    decreases |ops|
  {
    hide MpfOk, HeldOnce, NoteOk, Owners, LateEnabled, Proper, LateDo;
    if ops != [] {
      ProperStepKeeps(l, c, ops[0]);
      ProperUse(LateDo(l, c, ops[0]), c, ops[1..], l');
    }
  }

  /** With nothing in between, the checks accept exactly what the one step of rel_mpf accepts, and
      the locked part does what it does. */
  lemma NothingBetween(l: Late, c: MpfConfig, blk: nat)
    requires LateOk(l, c) && S.InTask(l.l.x.s) && GoodBlock(l.l.x.pool, c, blk)
    ensures var l1 := LateDo(l, c, CheckBound(blk));
      && l1.l == l.l && LateOk(l1, c) && LateEnabled(l1, c, CheckAlloc(true))
      && var l2 := LateDo(l1, c, CheckAlloc(true));
      && l2.l == l.l && LateOk(l2, c) && LateEnabled(l2, c, Commit)
      && LateDo(l2, c, Commit).l == HoldersDo(l.l, c, Rel(blk))
  {
    hide MpfOk, HeldOnce, NoteOk, Index, Aligned, CommitDo, HoldersDo;
    var i := Index(c, blk);
    var l1 := LateDo(l, c, CheckBound(blk));
    LateStepKeeps(l, c, CheckBound(blk));
    AcceptedNote(l1, c);
    LateStepKeeps(l1, c, CheckAlloc(true));
    OneStep(l.l, c, blk);
  }

  lemma OneStep(l: Holders, c: MpfConfig, blk: nat)
    requires MpfOk(l.x, c) && HeldOnce(l) && S.InTask(l.x.s) && c.blksz > 0 && GoodBlock(l.x.pool, c, blk)
    ensures GrantOf(l, Index(c, blk)).Some?
    ensures CommitDo(l, c, Accepted(blk, GrantOf(l, Index(c, blk)))) == HoldersDo(l, c, Rel(blk))
  {
    hide MpfOk, CommitStep, Index, Aligned, Allocated, Handed;
    PoolFacts(l.x, c);
    NotOfIs(l, GrantOf(l, Index(c, blk)).value);
    CommitKeeps(l.x, c, blk);
  }
}
