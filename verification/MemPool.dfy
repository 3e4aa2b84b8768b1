/**
 mempfix.c: the free list of a memory pool, linked through an array of indices, and the
 service calls.
 */
module MemPool {
  import opened Common
  import opened KernelState
  import opened ObjectSteps
  import opened MemPools
  import opened Kernels
  import opened ObjectCalls
  import opened TaskSync
  import S = KernelSpec

  /** Following the indices from `i` leads through the blocks `fl` to INDEX_NULL. */
  ghost predicate FreeChain(next: seq<nat>, i: nat, fl: seq<nat>)
    decreases |fl|
  {
    if fl == [] then i == INDEX_NULL
    else i == fl[0] && i < |next| && i < INDEX_ALLOC && FreeChain(next, next[i], fl[1..])
  }

  lemma {:induction false} ChainElsewhere(next: seq<nat>, i: nat, fl: seq<nat>, j: nat, n: nat)
    requires FreeChain(next, i, fl) && j < |next| && j !in fl
    ensures FreeChain(next[j := n], i, fl)
    decreases |fl|
  {
    if fl != [] {
      assert j !in fl[1..];
      ChainElsewhere(next, next[i], fl[1..], j, n);
    }
  }

  /** MPFCB with its index array, and the WINFO_MPF of the tasks. */
  class MemoryPool {
    const k: Kernel
    const c: MpfConfig
    const next: array<nat>  // the next fields of p_mpfmb
    var fblkcnt: int
    var unused: nat
    var freelist: nat
    var blk: map<TaskId, nat>
    ghost var fl: seq<nat>

    /** Exactly the allocated blocks are marked so, and the free list goes through the others. */
    ghost predicate ListOk()
      reads `fblkcnt, `unused, `freelist, `fl, next
    {
      && next.Length == c.blkcnt && PoolOk(Pool(fl, unused), c)
      && FreeChain(next[..], freelist, fl)
      && (forall i: nat :: i < unused ==> (next[i] == INDEX_ALLOC <==> i !in fl))
      && fblkcnt == Free(Pool(fl, unused), c)
    }

    ghost predicate Valid()
      reads this, next, k, k.tm, k.tm.heap
    {
      ListOk() && k.Rep() && MpfOk(Value(), c)
    }

    ghost function Value(): MpfState
      reads this, k, k.tm
    {
      MpfState(k.View(), Pool(fl, unused), blk)
    }

    /** initialize_mempfix, for one memory pool. */
    constructor (k: Kernel, c: MpfConfig)
      requires k.Rep() && MpfOk(MpfState(k.View(), Pool([], 0), map[]), c)
      ensures this.k == k && this.c == c && fresh(next) && Valid()
      ensures Value() == MpfState(k.View(), Pool([], 0), map[])
    {
      hide Kernel.Rep, Inv;
      this.k := k;
      this.c := c;
      next := new nat[c.blkcnt](_ => 0);
      fblkcnt, unused, freelist := c.blkcnt, 0, INDEX_NULL;
      blk, fl := map[], [];
    }

    /** get_mpf_block. */
    method GetMpfBlock() returns (b: nat)
      requires ListOk() && fblkcnt > 0
      modifies next, `fblkcnt, `unused, `freelist, `fl
      ensures ListOk()
      ensures (Pool(fl, unused), (b - c.mpf) / c.blksz) == GetBlock(old(Pool(fl, unused)))
      ensures b == Addr(c, GetBlock(old(Pool(fl, unused))).1)
    {
      ghost var p, was := Pool(fl, unused), next[..];
      GetBlockFacts(p, c);
      var blkidx;
      if freelist != INDEX_NULL {
        blkidx := freelist;
        freelist := next[blkidx];
        fl := fl[1..];
      } else {
        blkidx := unused;
        unused := unused + 1;
      }
      b := c.mpf + c.blksz * blkidx;
      AddrIndex(c, blkidx);
      fblkcnt := fblkcnt - 1;
      next[blkidx] := INDEX_ALLOC;
      assert next[..] == was[blkidx := INDEX_ALLOC];
      assert blkidx !in fl by {
        assert Allocated(Pool(fl, unused), blkidx);
      }
      ChainElsewhere(was, freelist, fl, blkidx, INDEX_ALLOC);
      assert forall i: nat :: i < unused && i != blkidx ==> (Allocated(Pool(fl, unused), i) <==> Allocated(p, i));
    }

    /** tget_mpf, and get_mpf if `tmout` is TMO_FEVR, up to the dispatch. */
    method TgetMpf(tmout: int) returns (out: S.Outcome, b: Option<nat>)
      requires Valid() && tmout <= k.cfg.time.tmax
      modifies next, `fblkcnt, `unused, `freelist, `fl, k`tcb, k`queue, k`readyPrimap, k`schedtsk, k`runtsk
      modifies k.tm.heap, k.tm`blocks, k.tm`times, k.tm`lastIndex, k.tm`pending
      ensures Valid()
      ensures MpfResult(Value(), out, b) == TgetStep(old(Value()), c, tmout)
    {
      hide Kernel.Rep, Inv, S.WaitOn, PoolOk, FreeChain, GetBlock;
      TgetKeeps(Value(), c, tmout);
      var ok := CheckDispatch(k);
      if !ok {
        return S.Returns(E_CTX), None;
      }
      if tmout < S.TMO_FEVR {
        return S.Returns(E_PAR), None;
      }
      if fblkcnt > 0 {
        var addr := GetMpfBlock();
        return S.Returns(E_OK), Some(addr);
      }
      if tmout == S.TMO_POL {
        return S.Returns(E_TMOUT), None;
      }
      WaitNow(k, c.q, tmout);
      return S.Blocks, None;
    }

    /** pget_mpf. */
    method PgetMpf() returns (ercd: Ercd, b: Option<nat>)
      requires Valid()
      modifies next, `fblkcnt, `unused, `freelist, `fl
      ensures Valid()
      ensures MpfResult(Value(), S.Returns(ercd), b) == PgetStep(old(Value()), c)
    {
      hide Kernel.Rep, Inv, PoolOk, FreeChain, GetBlock;
      PgetKeeps(Value(), c);
      var ok := CheckContext(k, false);
      if !ok {
        return E_CTX, None;
      }
      if fblkcnt > 0 {
        var addr := GetMpfBlock();
        return E_OK, Some(addr);
      }
      return E_TMOUT, None;
    }

    /** The parameter checks of rel_mpf. */
    method CheckBlock(b: nat) returns (ok: bool)
      requires ListOk()
      ensures c.blksz > 0 && (ok <==> GoodBlock(Pool(fl, unused), c, b))
    {
      if !(c.mpf <= b) {
        return false;
      }
      var blkoffset := b - c.mpf;
      if blkoffset % c.blksz != 0 {
        return false;
      }
      var blkidx := blkoffset / c.blksz;
      if !(blkidx < unused) {
        return false;
      }
      return next[blkidx] == INDEX_ALLOC;
    }

    /** The return of a block to the free list. */
    method PutMpfBlock(blkidx: nat)
      requires ListOk() && Allocated(Pool(fl, unused), blkidx)
      modifies next, `fblkcnt, `freelist, `fl
      ensures ListOk() && fl == [blkidx] + old(fl)
    {
      ghost var was := next[..];
      PutBlockFacts(Pool(fl, unused), c, blkidx);
      ChainIndex(was, freelist, fl);
      fblkcnt := fblkcnt + 1;
      next[blkidx] := freelist;
      assert next[..] == was[blkidx := freelist];
      ChainElsewhere(was, freelist, fl, blkidx, freelist);
      freelist := blkidx;
      assert ([blkidx] + fl)[1..] == fl;
      fl := [blkidx] + fl;
    }

    /** The locked part of rel_mpf, for a block that is in use. */
    method CommitBlock(b: nat)
      requires Valid() && S.InTask(k.View()) && c.blksz > 0 && GoodBlock(Pool(fl, unused), c, b)
      modifies next, `fblkcnt, `freelist, `fl, `blk, k`tcb, k`queue, k`readyPrimap, k`schedtsk, k`runtsk, k`reqflg
      modifies k.tm.heap, k.tm`blocks, k.tm`times, k.tm`lastIndex, k.tm`pending
      ensures ListOk() && k.Rep() && Value() == CommitStep(old(Value()), c, b)
    {
      hide Kernel.Rep, Inv, PoolOk, FreeChain, HandOver, Allocated;
      if k.queue[c.q] != [] {
        blk := blk[k.queue[c.q][0] := b];
        var _ := CompleteNext(k, c.q, false);
      } else {
        PutMpfBlock((b - c.mpf) / c.blksz);
      }
    }

    /** rel_mpf, with nothing between the checks and the locked part. */
    method RelMpf(b: nat) returns (ercd: Ercd)
      requires Valid()
      modifies next, `fblkcnt, `freelist, `fl, `blk, k`tcb, k`queue, k`readyPrimap, k`schedtsk, k`runtsk, k`reqflg
      modifies k.tm.heap, k.tm`blocks, k.tm`times, k.tm`lastIndex, k.tm`pending
      ensures Valid()
      ensures MpfResult(Value(), S.Returns(ercd), None) == RelStep(old(Value()), c, b)
    {
      hide Kernel.Rep, Inv, PoolOk, FreeChain, HandOver, Allocated, CommitStep;
      RelKeeps(Value(), c, b);
      var ok := CheckContext(k, false);
      if !ok {
        return E_CTX;
      }
      ok := CheckBlock(b);
      if !ok {
        return E_PAR;
      }
      CommitBlock(b);
      return E_OK;
    }

    /** ini_mpf. */
    method IniMpf() returns (ercd: Ercd)
      requires Valid()
      modifies `fblkcnt, `unused, `freelist, `fl, k`tcb, k`queue, k`readyPrimap, k`schedtsk, k`runtsk
      modifies k.tm.heap, k.tm`blocks, k.tm`times, k.tm`lastIndex, k.tm`pending
      ensures Valid()
      ensures MpfResult(Value(), S.Returns(ercd), None) == ResetStep(old(Value()), c)
    {
      hide Kernel.Rep, Inv, S.EndWaits, MpfOk, PoolOk, S.AllTasks;
      ResetKeeps(Value(), c);
      PoolParts(Value(), c);
      var ok := CheckContext(k, false);
      if !ok {
        return E_CTX;
      }
      DeleteAll(k, c.q);
      fblkcnt := c.blkcnt;
      unused := 0;
      freelist := INDEX_NULL;
      fl := [];
      return E_OK;
    }
  }

  lemma PoolParts(x: MpfState, c: MpfConfig)
    requires MpfOk(x, c)
    ensures Inv(x.s) && c.q in x.s.cfg.queues && c.q in x.s.queue && PoolOk(Pool([], 0), c)
  {
  }

  lemma ChainIndex(next: seq<nat>, i: nat, fl: seq<nat>)
    requires FreeChain(next, i, fl)
    ensures i != INDEX_ALLOC
  {
  }
}
