/**
 mempfix.c as steps on values, and who holds which memory block over all runs.
 */
module MemPools {
  import opened Common
  import opened SystemTime
  import opened KernelState
  import opened KernelRuns
  import opened WaitSteps
  import opened ObjectSteps
  import S = KernelSpec

  const INDEX_NULL: nat := 0xFFFF_FFFF
  const INDEX_ALLOC: nat := 0xFFFF_FFFE

  /** What the configurator generates: the number and size of the blocks and where they start. */
  datatype MpfConfig = MpfConfig(q: QName, blkcnt: nat, blksz: nat, mpf: nat)

  /** Blocks below `unused` are free if they are in the free list, and allocated otherwise. */
  datatype Pool = Pool(freelist: seq<nat>, unused: nat)

  /** The kernel with a memory pool, and the blocks that waiting tasks have got (WINFO_MPF). */
  datatype MpfState = MpfState(s: State, pool: Pool, blk: map<TaskId, nat>)

  datatype MpfResult = MpfResult(x: MpfState, out: S.Outcome, blk: Option<nat>)

  /** The address of a block. */
  function Addr(c: MpfConfig, i: nat): nat {
    c.mpf + c.blksz * i
  }

  /** From an address to the index and back. */
  lemma AddrIndex(c: MpfConfig, i: nat)
    requires c.blksz > 0
    ensures (Addr(c, i) - c.mpf) % c.blksz == 0 && (Addr(c, i) - c.mpf) / c.blksz == i
  {
    DivIs(c.blksz * i, c.blksz, i, 0);
  }

  lemma IndexAddr(c: MpfConfig, addr: nat)
    requires c.blksz > 0 && c.mpf <= addr && (addr - c.mpf) % c.blksz == 0
    ensures Addr(c, (addr - c.mpf) / c.blksz) == addr
  {
    var offset := addr - c.mpf;
    assert offset == (offset / c.blksz) * c.blksz + offset % c.blksz;
  }

  ghost predicate PoolOk(p: Pool, c: MpfConfig) {
    && c.blksz > 0 && c.blkcnt <= INDEX_ALLOC
    && p.unused <= c.blkcnt && NoDup(p.freelist)
    && forall i :: 0 <= i < |p.freelist| ==> p.freelist[i] < p.unused
  }

  predicate Allocated(p: Pool, i: nat) {
    i < p.unused && i !in p.freelist
  }

  /** fblkcnt. */
  function Free(p: Pool, c: MpfConfig): int {
    c.blkcnt - p.unused + |p.freelist|
  }

  /** Nobody waits while there is a free block. */
  ghost predicate MpfOk(x: MpfState, c: MpfConfig) {
    && Inv(x.s) && x.s.cfg.time.Ok() && c.q in x.s.cfg.queues && c.q in x.s.queue && c.q.Wait?
    && S.AllTasks(x.s.queue[c.q], |x.s.tcb|)
    && PoolOk(x.pool, c)
    && (x.s.queue[c.q] != [] ==> Free(x.pool, c) == 0)
  }

  /** get_mpf_block: the pool afterwards, and the index of the block. */
  function GetBlock(p: Pool): (Pool, nat) {
    if p.freelist != [] then (Pool(p.freelist[1..], p.unused), p.freelist[0])
    else (Pool([], p.unused + 1), p.unused)
  }

  /** The block was not allocated before and is now; nothing else changes, and one block less is free. */
  lemma GetBlockFacts(p: Pool, c: MpfConfig)
    requires PoolOk(p, c) && Free(p, c) > 0
    ensures var (p', i) := GetBlock(p);
      && PoolOk(p', c) && i < p'.unused && !Allocated(p, i) && Free(p', c) == Free(p, c) - 1
      && forall j: nat :: Allocated(p', j) <==> Allocated(p, j) || j == i
  {
    var (p', i) := GetBlock(p);
    if p.freelist != [] {
      assert p.freelist[0] in p.freelist;
      assert p.freelist == [p.freelist[0]] + p'.freelist;
      assert p.freelist[0] !in p'.freelist;
      assert forall j: nat :: j in p.freelist <==> j == i || j in p'.freelist;
    }
  }

  /** The return of a block to the pool undoes its allocation. */
  lemma PutBlockFacts(p: Pool, c: MpfConfig, i: nat)
    requires PoolOk(p, c) && Allocated(p, i)
    ensures var p' := Pool([i] + p.freelist, p.unused);
      && PoolOk(p', c) && Free(p', c) == Free(p, c) + 1
      && forall j: nat :: Allocated(p', j) <==> Allocated(p, j) && j != i
  {
    var f := [i] + p.freelist;
    assert forall j: nat :: j in f <==> j == i || j in p.freelist;
    forall k, l | 0 <= k < l < |f|
      ensures f[k] != f[l]
    {
      if k == 0 {
        assert f[l] == p.freelist[l - 1];
        assert p.freelist[l - 1] in p.freelist;
      }
    }
  }

  /** The checks of rel_mpf: does `blk` point to an allocated block? */
  predicate GoodBlock(p: Pool, c: MpfConfig, blk: nat)
    requires c.blksz > 0
  {
    Aligned(c, blk) && Allocated(p, Index(c, blk))
  }

  /** Can `blk` be the address of a block? */
  predicate Aligned(c: MpfConfig, blk: nat)
    requires c.blksz > 0
  {
    c.mpf <= blk && (blk - c.mpf) % c.blksz == 0
  }

  /** The index of the block at an address. */
  function Index(c: MpfConfig, blk: nat): nat
    requires c.blksz > 0
  {
    if blk < c.mpf then 0 else (blk - c.mpf) / c.blksz
  }

  /** tget_mpf, and get_mpf if `tmout` is TMO_FEVR. */
  ghost function TgetStep(x: MpfState, c: MpfConfig, tmout: int): MpfResult
    requires MpfOk(x, c)
  {
    if !S.MayWait(x.s) then MpfResult(x, S.Returns(E_CTX), None)
    else if tmout < S.TMO_FEVR then MpfResult(x, S.Returns(E_PAR), None)
    else if Free(x.pool, c) > 0 then
      var (p, i) := GetBlock(x.pool);
      MpfResult(x.(pool := p), S.Returns(E_OK), Some(Addr(c, i)))
    else if tmout == S.TMO_POL then MpfResult(x, S.Returns(E_TMOUT), None)
    else MpfResult(x.(s := S.WaitOn(x.s, c.q, tmout).s), S.Blocks, None)
  }

  /** pget_mpf. */
  ghost function PgetStep(x: MpfState, c: MpfConfig): MpfResult
    requires MpfOk(x, c)
  {
    if !S.InTask(x.s) then MpfResult(x, S.Returns(E_CTX), None)
    else if Free(x.pool, c) > 0 then
      var (p, i) := GetBlock(x.pool);
      MpfResult(x.(pool := p), S.Returns(E_OK), Some(Addr(c, i)))
    else MpfResult(x, S.Returns(E_TMOUT), None)
  }

  /** The locked part of rel_mpf: the block goes straight to the first waiting task, or to the
      free list. */
  ghost function CommitStep(x: MpfState, c: MpfConfig, blk: nat): MpfState
    requires MpfOk(x, c) && S.InTask(x.s)
  {
    if x.s.queue[c.q] != [] then x.(s := HandOver(x.s, c.q, false), blk := x.blk[x.s.queue[c.q][0] := blk])
    else x.(pool := Pool([Index(c, blk)] + x.pool.freelist, x.pool.unused))
  }

  /** rel_mpf, if nothing comes between its checks and its locked part. */
  ghost function RelStep(x: MpfState, c: MpfConfig, blk: nat): MpfResult
    requires MpfOk(x, c)
  {
    if !S.InTask(x.s) then MpfResult(x, S.Returns(E_CTX), None)
    else if !GoodBlock(x.pool, c, blk) then MpfResult(x, S.Returns(E_PAR), None)
    else MpfResult(CommitStep(x, c, blk), S.Returns(E_OK), None)
  }

  /** ini_mpf. */
  ghost function ResetStep(x: MpfState, c: MpfConfig): MpfResult
    requires MpfOk(x, c)
  {
    if !S.InTask(x.s) then MpfResult(x, S.Returns(E_CTX), None)
    else MpfResult(x.(s := S.EndWaits(x.s, x.s.queue[c.q], E_DLT), pool := Pool([], 0)), S.Returns(E_OK), None)
  }

  // ----- runs -----

  datatype MpfOp = Other(op: Op) | Tget(tmout: int) | Pget | Rel(blk: nat) | Ini

  ghost predicate MpfEnabled(x: MpfState, c: MpfConfig, op: MpfOp)
    requires MpfOk(x, c)
  {
    match op
    case Other(op) => Enabled(x.s, op) && Foreign(x.s, op, c.q)
    case Tget(tmout) => tmout <= x.s.cfg.time.tmax
    case _ => true
  }

  ghost function MpfDo(x: MpfState, c: MpfConfig, op: MpfOp): MpfResult
    requires MpfOk(x, c) && MpfEnabled(x, c, op)
  {
    match op
    case Other(op) => MpfShape(x, c); MpfResult(x.(s := Do(x.s, op)), S.Blocks, None)
    case Tget(tmout) => TgetStep(x, c, tmout)
    case Pget => PgetStep(x, c)
    case Rel(blk) => RelStep(x, c, blk)
    case Ini => ResetStep(x, c)
  }

  lemma MpfShape(x: MpfState, c: MpfConfig)
    requires MpfOk(x, c)
    ensures ShapeOk(x.s)
  {
    hide DispatchOk, QueuesOk, TimersOk, Sorted, ClockOk, PoolOk;
  }

  /** The waiting task whose wait ends with E_OK in a step, with the block that it gets. */
  ghost function Handed(x: MpfState, y: MpfState, q: QName): Option<(TaskId, nat)> {
    if q !in x.s.queue || x.s.queue[q] == [] then None
    else
      var t := x.s.queue[q][0];
      if t < |y.s.tcb| && y.s.tcb[t].winfo == Wercd(E_OK) && t in y.blk then Some((t, y.blk[t])) else None
  }

  lemma NothingHanded(x: MpfState, c: MpfConfig)
    requires MpfOk(x, c)
    ensures Handed(x, x, c.q) == None
    ensures forall p: Pool :: Handed(x, x.(pool := p), c.q) == None
  {
    hide Inv, PoolOk;
    ObjectQueue(x.s, c.q);
    if x.s.queue[c.q] != [] {
      assert x.s.queue[c.q][0] in x.s.queue[c.q];
    }
  }

  lemma OtherKeeps(x: MpfState, c: MpfConfig, op: Op)
    requires MpfOk(x, c) && Enabled(x.s, op) && Foreign(x.s, op, c.q)
    ensures ShapeOk(x.s)
    ensures var y := x.(s := Do(x.s, op)); MpfOk(y, c) && Handed(x, y, c.q) == None
  {
    hide Inv, ShapeOk, Enabled, Do, Foreign, PoolOk;
    MpfShape(x, c);
    var s' := Do(x.s, op);
    ForeignLeaves(x.s, op, c.q);
    ObjectQueue(x.s, c.q);
    ObjectQueue(s', c.q);
    assert s'.queue[c.q] != [] ==> s'.queue[c.q][0] in s'.queue[c.q];
    if x.s.queue[c.q] != [] {
      assert x.s.queue[c.q][0] in x.s.queue[c.q];
    }
  }

  lemma TgetKeeps(x: MpfState, c: MpfConfig, tmout: int)
    requires MpfOk(x, c) && tmout <= x.s.cfg.time.tmax
    ensures var r := TgetStep(x, c, tmout);
      && MpfOk(r.x, c) && Handed(x, r.x, c.q) == None
  {
    hide Inv, S.WaitOn, PoolOk;
    NothingHanded(x, c);
    if Free(x.pool, c) > 0 {
      GetBlockFacts(x.pool, c);
    } else if S.MayWait(x.s) && S.TMO_FEVR <= tmout && tmout != S.TMO_POL {
      JoinFacts(x.s, c.q, tmout);
      ObjectQueue(S.WaitOn(x.s, c.q, tmout).s, c.q);
      ObjectQueue(x.s, c.q);
      if x.s.queue[c.q] != [] {
        assert x.s.queue[c.q][0] in x.s.queue[c.q];
      }
      NoneFree(x.pool, c);
    }
  }

  lemma NoneFree(p: Pool, c: MpfConfig)
    requires PoolOk(p, c) && Free(p, c) <= 0
    ensures Free(p, c) == 0 && p.freelist == [] && p.unused == c.blkcnt
  {
  }

  lemma RelKeeps(x: MpfState, c: MpfConfig, blk: nat)
    requires MpfOk(x, c)
    ensures var r := RelStep(x, c, blk);
      && MpfOk(r.x, c)
      && Handed(x, r.x, c.q) == if r.out == S.Returns(E_OK) && x.s.queue[c.q] != [] then Some((x.s.queue[c.q][0], blk)) else None
  {
    hide Inv, HandOver, PoolOk, Allocated;
    NothingHanded(x, c);
    BlockSize(x.pool, c);
    if S.InTask(x.s) && GoodBlock(x.pool, c, blk) {
      if x.s.queue[c.q] != [] {
        HandOverFacts(x.s, c.q, false);
        ObjectQueue(HandOver(x.s, c.q, false), c.q);
      } else {
        PutBlockFacts(x.pool, c, Index(c, blk));
      }
    }
  }

  lemma BlockSize(p: Pool, c: MpfConfig)
    requires PoolOk(p, c)
    ensures c.blksz > 0
  {
  }

  lemma ResetKeeps(x: MpfState, c: MpfConfig)
    requires MpfOk(x, c)
    ensures var r := ResetStep(x, c); MpfOk(r.x, c) && Handed(x, r.x, c.q) == None
  {
    hide CoreOk, DispatchOk, S.ReleaseAll, Sched;
    ObjectQueue(x.s, c.q);
    if x.s.queue[c.q] != [] {
      assert x.s.queue[c.q][0] in x.s.queue[c.q];
    }
    if S.InTask(x.s) {
      EndWaitsKeeps(x.s, x.s.queue[c.q], E_DLT);
      FlushFacts(x.s, c.q, E_DLT);
      ObjectQueue(ResetStep(x, c).x.s, c.q);
    }
  }

  /** Every step keeps the pool in order, and nobody waiting while a block is free. */
  lemma MpfStepKeeps(x: MpfState, c: MpfConfig, op: MpfOp)
    requires MpfOk(x, c) && MpfEnabled(x, c, op)
    ensures MpfOk(MpfDo(x, c, op).x, c)
  {
    hide MpfOk, Enabled, Do, Foreign, Handed, RelStep, TgetStep, PgetStep, ResetStep;
    match op
    case Other(op) => OtherKeeps(x, c, op);
    case Tget(tmout) => TgetKeeps(x, c, tmout);
    case Pget => PgetKeeps(x, c);
    case Rel(blk) => RelKeeps(x, c, blk);
    case Ini => ResetKeeps(x, c);
  }

  lemma PgetKeeps(x: MpfState, c: MpfConfig)
    requires MpfOk(x, c)
    ensures var r := PgetStep(x, c); MpfOk(r.x, c) && Handed(x, r.x, c.q) == None
  {
    hide Inv, PoolOk;
    NothingHanded(x, c);
    if Free(x.pool, c) > 0 {
      GetBlockFacts(x.pool, c);
    }
  }

  // ----- who holds which block -----

  /** A block that a task got, at once or when its wait ended with E_OK. */
  datatype Grant = Grant(idx: nat, tsk: TaskId)

  /** The pool with the grants that have neither been returned nor become void by an
      initialisation. Grants are numbered in the order in which they were made. */
  datatype Holders = Holders(x: MpfState, grants: map<nat, Grant>, next: nat)

  /** A step leads to `x'` with `left` of the grants; the one that it makes is added. */
  ghost function Granted(l: Holders, c: MpfConfig, x': MpfState, left: map<nat, Grant>, got: Option<(TaskId, nat)>): Holders
    requires c.blksz > 0
  {
    match got
    case None => Holders(x', left, l.next)
    case Some(g) => Holders(x', left[l.next := Grant(Index(c, g.1), g.0)], l.next + 1)
  }

  /** The grants of other blocks than the one with the index `i`. */
  function NotOf(grants: map<nat, Grant>, i: nat): map<nat, Grant> {
    map k | k in grants && grants[k].idx != i :: grants[k]
  }

  ghost function HoldersDo(l: Holders, c: MpfConfig, op: MpfOp): Holders
    requires MpfOk(l.x, c) && MpfEnabled(l.x, c, op)
  {
    PoolFacts(l.x, c);
    var r := MpfDo(l.x, c, op);
    var ok := r.out == S.Returns(E_OK);
    if op.Ini? && ok then Holders(r.x, map[], l.next)
    else Granted(l, c, r.x,
                 if op.Rel? && ok then NotOf(l.grants, Index(c, op.blk)) else l.grants,
                 if r.blk.Some? && l.x.s.runtsk.Some? then Some((l.x.s.runtsk.value, r.blk.value)) else Handed(l.x, r.x, c.q))
  }

  lemma PoolFacts(x: MpfState, c: MpfConfig)
    requires MpfOk(x, c)
    ensures PoolOk(x.pool, c) && c.blksz > 0 && c.q in x.s.queue
  {
    hide Inv;
  }

  /** Exactly the allocated blocks are granted, each to one task. */
  ghost predicate HeldOnce(l: Holders) {
    && (forall k :: k in l.grants ==> k < l.next && Allocated(l.x.pool, l.grants[k].idx))
    && (forall k1, k2 :: k1 in l.grants && k2 in l.grants && l.grants[k1].idx == l.grants[k2].idx ==> k1 == k2)
    && (forall i: nat :: Allocated(l.x.pool, i) ==> exists k :: k in l.grants && l.grants[k].idx == i)
  }

  /** A free block is granted. */
  lemma TakeKeepsHeld(l: Holders, c: MpfConfig, x': MpfState, t: TaskId)
    requires HeldOnce(l) && PoolOk(l.x.pool, c) && Free(l.x.pool, c) > 0 && x'.pool == GetBlock(l.x.pool).0
    ensures HeldOnce(Holders(x', l.grants[l.next := Grant(GetBlock(l.x.pool).1, t)], l.next + 1))
  {
    hide Allocated, GetBlock;
    GetBlockFacts(l.x.pool, c);
    var i := GetBlock(l.x.pool).1;
    var grants := l.grants[l.next := Grant(i, t)];
    forall j: nat | Allocated(x'.pool, j)
      ensures exists k :: k in grants && grants[k].idx == j
    {
      if j == i {
        assert grants[l.next].idx == i;
      } else {
        var k :| k in l.grants && l.grants[k].idx == j;
        assert grants[k].idx == j;
      }
    }
  }

  /** A granted block goes back to the free list. */
  lemma ReturnKeepsHeld(l: Holders, c: MpfConfig, i: nat, x': MpfState)
    requires HeldOnce(l) && PoolOk(l.x.pool, c) && Allocated(l.x.pool, i)
    requires x'.pool == Pool([i] + l.x.pool.freelist, l.x.pool.unused)
    ensures HeldOnce(Holders(x', NotOf(l.grants, i), l.next))
  {
    hide Allocated;
    PutBlockFacts(l.x.pool, c, i);
    var left := NotOf(l.grants, i);
    forall j: nat | Allocated(x'.pool, j)
      ensures exists k :: k in left && left[k].idx == j
    {
      var k :| k in l.grants && l.grants[k].idx == j;
      assert k in left;
    }
  }

  /** A granted block goes to another task. */
  lemma PassKeepsHeld(l: Holders, i: nat, x': MpfState, t: TaskId)
    requires HeldOnce(l) && Allocated(l.x.pool, i) && x'.pool == l.x.pool
    ensures HeldOnce(Holders(x', NotOf(l.grants, i)[l.next := Grant(i, t)], l.next + 1))
  {
    hide Allocated;
    var grants := NotOf(l.grants, i)[l.next := Grant(i, t)];
    forall j: nat | Allocated(x'.pool, j)
      ensures exists k :: k in grants && grants[k].idx == j
    {
      if j == i {
        assert grants[l.next].idx == i;
      } else {
        var k :| k in l.grants && l.grants[k].idx == j;
        assert k in NotOf(l.grants, i) && grants[k].idx == j;
      }
    }
  }

  lemma SamePool(l: Holders, l': Holders)
    requires HeldOnce(l) && l'.x.pool == l.x.pool && l'.grants == l.grants && l'.next == l.next
    ensures HeldOnce(l')
  {
  }

  lemma NothingHeld(l: Holders)
    requires l.x.pool == Pool([], 0) && l.grants == map[]
    ensures HeldOnce(l)
  {
  }

  lemma GetHolders(l: Holders, c: MpfConfig, op: MpfOp)
    requires MpfOk(l.x, c) && MpfEnabled(l.x, c, op) && HeldOnce(l) && (op.Tget? || op.Pget?)
    ensures var l' := HoldersDo(l, c, op); MpfOk(l'.x, c) && HeldOnce(l')
  {
    hide MpfOk, S.WaitOn, HeldOnce, GetBlock, Handed, Index, Addr;
    var x := l.x;
    var r := MpfDo(x, c, op);
    PoolFacts(x, c);
    if op.Tget? {
      TgetKeeps(x, c, op.tmout);
    } else {
      PgetKeeps(x, c);
    }
    if r.blk.Some? {
      IndexIs(c, GetBlock(x.pool).1);
      TakeKeepsHeld(l, c, r.x, x.s.runtsk.value);
    } else {
      SamePool(l, HoldersDo(l, c, op));
    }
  }

  lemma IndexIs(c: MpfConfig, i: nat)
    requires c.blksz > 0
    ensures Aligned(c, Addr(c, i)) && Index(c, Addr(c, i)) == i
  {
    hide Addr;
    AddrIndex(c, i);
    assert Addr(c, i) >= c.mpf by { AddrAbove(c, i); }
  }

  lemma AddrAbove(c: MpfConfig, i: nat)
    ensures Addr(c, i) >= c.mpf
  {
  }

  /** What the locked part of rel_mpf does for an allocated block. */
  lemma CommitKeeps(x: MpfState, c: MpfConfig, blk: nat)
    requires MpfOk(x, c) && S.InTask(x.s) && c.blksz > 0 && GoodBlock(x.pool, c, blk)
    ensures MpfOk(CommitStep(x, c, blk), c)
    ensures Handed(x, CommitStep(x, c, blk), c.q) == if x.s.queue[c.q] != [] then Some((x.s.queue[c.q][0], blk)) else None
  {
    hide MpfOk, CommitStep, Handed, GoodBlock;
    RelKeeps(x, c, blk);
  }

  lemma RelHolders(l: Holders, c: MpfConfig, blk: nat)
    requires MpfOk(l.x, c) && HeldOnce(l)
    ensures var l' := HoldersDo(l, c, Rel(blk)); MpfOk(l'.x, c) && HeldOnce(l')
  {
    hide MpfOk, HandOver, HeldOnce, Handed, Index, Allocated;
    var x := l.x;
    PoolFacts(x, c);
    RelKeeps(x, c, blk);
    if S.InTask(x.s) && GoodBlock(x.pool, c, blk) {
      if x.s.queue[c.q] == [] {
        ReturnKeepsHeld(l, c, Index(c, blk), CommitStep(x, c, blk));
      } else {
        PassKeepsHeld(l, Index(c, blk), CommitStep(x, c, blk), x.s.queue[c.q][0]);
      }
    } else {
      SamePool(l, HoldersDo(l, c, Rel(blk)));
    }
  }

  lemma ResetHolders(l: Holders, c: MpfConfig)
    requires MpfOk(l.x, c) && HeldOnce(l)
    ensures var l' := HoldersDo(l, c, Ini); MpfOk(l'.x, c) && HeldOnce(l')
  {
    hide MpfOk, HeldOnce, Handed, S.EndWaits;
    ResetKeeps(l.x, c);
    PoolFacts(l.x, c);
    if S.InTask(l.x.s) {
      NothingHeld(HoldersDo(l, c, Ini));
    } else {
      SamePool(l, HoldersDo(l, c, Ini));
    }
  }

  /** Every step keeps one holder for each allocated block. */
  lemma HoldersStep(l: Holders, c: MpfConfig, op: MpfOp)
    requires MpfOk(l.x, c) && MpfEnabled(l.x, c, op) && HeldOnce(l)
    ensures var l' := HoldersDo(l, c, op); MpfOk(l'.x, c) && HeldOnce(l')
  {
    hide MpfOk, Enabled, Do, Foreign, HeldOnce, Handed, RelStep, TgetStep, PgetStep, ResetStep;
    match op
    case Other(other) =>
      OtherKeeps(l.x, c, other);
      PoolFacts(l.x, c);
      SamePool(l, HoldersDo(l, c, op));
    case Tget(_) => GetHolders(l, c, op);
    case Pget => GetHolders(l, c, op);
    case Rel(blk) => RelHolders(l, c, blk);
    case Ini => ResetHolders(l, c);
  }

  /** Whose grant a block is. */
  ghost predicate Holds(l: Holders, t: TaskId, i: nat) {
    exists k :: k in l.grants && l.grants[k] == Grant(i, t)
  }

  /** rel_mpf accepts a block if and only if some task holds it, whichever; and it ends the grant
      of this block and no other. A grant ends in no other way but by initialisation. */
  lemma GrantEnds(l: Holders, c: MpfConfig, op: MpfOp, k: nat)
    requires MpfOk(l.x, c) && MpfEnabled(l.x, c, op) && HeldOnce(l) && k in l.grants
    ensures c.blksz > 0
    ensures op.Rel? && S.InTask(l.x.s) ==>
      (MpfDo(l.x, c, op).out == S.Returns(E_OK) <==> Aligned(c, op.blk) && exists t: TaskId :: Holds(l, t, Index(c, op.blk)))
    ensures k !in HoldersDo(l, c, op).grants <==>
      S.InTask(l.x.s) && (op.Ini? || (op.Rel? && Aligned(c, op.blk) && Index(c, op.blk) == l.grants[k].idx))
    ensures k in HoldersDo(l, c, op).grants ==> HoldersDo(l, c, op).grants[k] == l.grants[k]
  {
    hide MpfOk, Enabled, Do, Foreign, Handed, CommitStep, TgetStep, PgetStep, ResetStep, Allocated;
    PoolFacts(l.x, c);
    ResultOf(l.x, c, op);
    if op.Rel? {
      HeldIsAllocated(l, Index(c, op.blk));
    }
  }

  /** When the calls succeed. */
  lemma ResultOf(x: MpfState, c: MpfConfig, op: MpfOp)
    requires MpfOk(x, c) && MpfEnabled(x, c, op)
    ensures c.blksz > 0
    ensures var r := MpfDo(x, c, op);
      && (op.Ini? ==> (r.out == S.Returns(E_OK) <==> S.InTask(x.s)))
      && (op.Rel? ==> (r.out == S.Returns(E_OK) <==> S.InTask(x.s) && GoodBlock(x.pool, c, op.blk)))
      && (op.Rel? || op.Ini? || op.Other? ==> r.blk == None)
  {
    hide MpfOk, Enabled, Do, Foreign, CommitStep, GoodBlock, S.WaitOn, S.EndWaits;
    PoolFacts(x, c);
  }

  lemma HeldIsAllocated(l: Holders, i: nat)
    requires HeldOnce(l)
    ensures Allocated(l.x.pool, i) <==> exists t: TaskId :: Holds(l, t, i)
  {
    hide Allocated;
    if Allocated(l.x.pool, i) {
      var k :| k in l.grants && l.grants[k].idx == i;
      assert Holds(l, l.grants[k].tsk, i);
    }
  }

  // ----- runs -----

  ghost predicate MpfRun(l: Holders, c: MpfConfig, ops: seq<MpfOp>, l': Holders)
    decreases |ops|
  {
    if ops == [] then l == l'
    else MpfOk(l.x, c) && MpfEnabled(l.x, c, ops[0]) && MpfRun(HoldersDo(l, c, ops[0]), c, ops[1..], l')
  }

  /** No block ever has two holders, even when it goes from one task straight to another; what
      is not allocated is held by nobody; and nobody waits while a block is free. */
  lemma {:induction false} OneHolderPerBlock(l: Holders, c: MpfConfig, ops: seq<MpfOp>, l': Holders)
    requires MpfOk(l.x, c) && HeldOnce(l) && MpfRun(l, c, ops, l')
    ensures MpfOk(l'.x, c) && HeldOnce(l')
    decreases |ops|
  {
    hide MpfOk, MpfEnabled, HoldersDo, HeldOnce;
    if ops != [] {
      HoldersStep(l, c, ops[0]);
      OneHolderPerBlock(HoldersDo(l, c, ops[0]), c, ops[1..], l');
    }
  }

  /** Does each task return only what it holds itself? */
  ghost predicate OwnReturns(l: Holders, c: MpfConfig, ops: seq<MpfOp>)
    decreases |ops|
  {
    ops == [] ||
    (&& MpfOk(l.x, c) && MpfEnabled(l.x, c, ops[0]) && c.blksz > 0
     && (ops[0].Rel? && S.InTask(l.x.s) ==> Holds(l, l.x.s.runtsk.value, Index(c, ops[0].blk)))
     && OwnReturns(HoldersDo(l, c, ops[0]), c, ops[1..]))
  }

  /** Does the task `t` return the block `i`, or does an initialisation take place? */
  ghost predicate GivesUp(l: Holders, c: MpfConfig, ops: seq<MpfOp>, t: TaskId, i: nat)
    decreases |ops|
  {
    ops != [] && MpfOk(l.x, c) && MpfEnabled(l.x, c, ops[0]) && c.blksz > 0 &&
    (|| (S.InTask(l.x.s) && (ops[0].Ini? || (ops[0].Rel? && l.x.s.runtsk == Some(t) && Index(c, ops[0].blk) == i)))
     || GivesUp(HoldersDo(l, c, ops[0]), c, ops[1..], t, i))
  }

  /** If tasks return only what they hold, a task that has got a block keeps it, alone, until it
      returns it itself or the pool is initialised. */
  lemma {:induction false} HolderKeepsBlock(l: Holders, c: MpfConfig, ops: seq<MpfOp>, l': Holders, k: nat)
    requires MpfOk(l.x, c) && HeldOnce(l) && MpfRun(l, c, ops, l') && OwnReturns(l, c, ops)
    requires k in l.grants && !GivesUp(l, c, ops, l.grants[k].tsk, l.grants[k].idx)
    ensures HeldOnce(l') && k in l'.grants && l'.grants[k] == l.grants[k]
    ensures forall k2 :: k2 in l'.grants && l'.grants[k2].idx == l.grants[k].idx ==> k2 == k
    decreases |ops|
  {
    hide MpfOk, MpfEnabled, HoldersDo, Index;
    if ops != [] {
      HoldersStep(l, c, ops[0]);
      GrantEnds(l, c, ops[0], k);
      HolderKeepsBlock(HoldersDo(l, c, ops[0]), c, ops[1..], l', k);
    }
  }
}
