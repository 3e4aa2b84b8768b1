/**
 The two loops that walk along a queue, by its pointers: the search for the place in task
 priority order, and the loop of set_flg, which takes entries out on its way.
 */
module QueueLoops {
  import opened KernelState
  import opened KernelQueues
  import opened Queues
  import S = KernelSpec

  /** The tasks whose entries are linked: casts from QUEUE to TCB. */
  function Tasks(r: seq<Queue>, task: map<Queue, TaskId>): (ts: seq<TaskId>)
    requires forall x :: x in r ==> x in task
    ensures |ts| == |r| && forall i :: 0 <= i < |r| ==> ts[i] == task[r[i]]
  {
    if r == [] then [] else [task[r[0]]] + Tasks(r[1..], task)
  }

  /** Going on by one entry. */
  lemma NextEntry(r: seq<Queue>, i: nat)
    requires Ring(r) && i < |r|
    ensures r[i].next == Round(r, i + 1) && r[i] in r && r[i].prev in r
  {
    NextPrevInverse(r, i);
    assert LinkOk(r, i);
  }

  /** queue_insert_tpri: the entry `e` of the task `t` is linked where InsertTpri says. */
  method InsertTpri(q: Queue, e: Queue, t: TaskId, task: map<Queue, TaskId>, tcb: seq<Tcb>, ghost r: seq<Queue>, ghost other: seq<Queue>)
    returns (ghost r': seq<Queue>)
    requires Ring(r) && r[0] == q && e !in r && Ring(other) && Apart(r, other) && e !in other
    requires (forall x :: x in r[1..] ==> x in task) && t < |tcb| && Sorted(Tasks(r[1..], task), tcb)
    modifies e, r
    ensures Ring(r') && r'[0] == q && Ring(other)
    ensures forall x :: x in r'[1..] <==> x in r[1..] || x == e
    ensures Tasks(r'[1..], task[e := t]) == S.InsertTpri(Tasks(r[1..], task), t, tcb)
  {
    ghost var ts := Tasks(r[1..], task);
    InsertTpriStable(ts, t, tcb);
    ghost var i := 1;
    NextEntry(r, 0);
    var entry := q.next;
    while entry != q
      invariant Ring(r) && Ring(other)
      invariant 1 <= i <= |r| && entry == Round(r, i) && i - 1 <= TpriPosition(ts, t, tcb)
      decreases |r| - i
    {
      assert i < |r| && ts[i - 1] == task[r[1..][i - 1]] && r[1..][i - 1] in r[1..];
      if tcb[t].priority < tcb[task[entry]].priority {
        break;
      }
      NextEntry(r, i);
      entry := entry.next;
      i := i + 1;
    }
    assert i - 1 == TpriPosition(ts, t, tcb);
    NextEntry(r, if i == |r| then 0 else i);
    InsertPrev(entry, e, r, if i == |r| then 0 else i, other);
    r' := r[..i] + [e] + r[i..];
    assert i == |r| ==> r' == r + [e];
    EntryInserted(r, i, e, t, task, ts);
  }

  lemma EntryInserted(r: seq<Queue>, i: nat, e: Queue, t: TaskId, task: map<Queue, TaskId>, ts: seq<TaskId>)
    requires 1 <= i <= |r| && (forall x :: x in r[1..] ==> x in task) && e !in r && ts == Tasks(r[1..], task)
    ensures var r' := r[..i] + [e] + r[i..];
      && (forall x :: x in r'[1..] <==> x in r[1..] || x == e)
      && Tasks(r'[1..], task[e := t]) == ts[..i - 1] + [t] + ts[i - 1..]
  {
    hide Tasks;
    var a, b := r[1..i], r[i..];
    assert (r[..i] + [e] + r[i..])[1..] == a + [e] + b && r[1..] == a + b;
    TasksAround(a, b, e, t, task);
    assert ts[..i - 1] == Tasks(a, task) && ts[i - 1..] == Tasks(b, task);
  }

  lemma TasksAround(a: seq<Queue>, b: seq<Queue>, e: Queue, t: TaskId, task: map<Queue, TaskId>)
    requires (forall x :: x in a + b ==> x in task) && e !in a && e !in b
    ensures forall x :: x in a + [e] + b <==> x in a + b || x == e
    ensures (forall x :: x in a ==> x in task) && (forall x :: x in b ==> x in task)
    ensures Tasks(a + b, task) == Tasks(a, task) + Tasks(b, task)
    ensures Tasks(a + [e] + b, task[e := t]) == Tasks(a, task) + [t] + Tasks(b, task)
  {
    hide Tasks;
    assert forall x :: x in a || x in b ==> x in a + b;
    TasksAppend(a, b, task);
    TasksElsewhere(a, e, t, task);
    TasksElsewhere(b, e, t, task);
    OneTask(e, t, task);
    TasksAppend(a, [e], task[e := t]);
    TasksAppend(a + [e], b, task[e := t]);
  }

  lemma OneTask(e: Queue, t: TaskId, task: map<Queue, TaskId>)
    ensures Tasks([e], task[e := t]) == [t]
  {
  }

  lemma TasksAppend(a: seq<Queue>, b: seq<Queue>, task: map<Queue, TaskId>)
    requires (forall x :: x in a ==> x in task) && (forall x :: x in b ==> x in task)
    ensures Tasks(a + b, task) == Tasks(a, task) + Tasks(b, task)
  {
  }

  lemma TasksElsewhere(a: seq<Queue>, e: Queue, t: TaskId, task: map<Queue, TaskId>)
    requires (forall x :: x in a ==> x in task) && e !in a
    ensures (forall x :: x in a ==> x in task[e := t]) && Tasks(a, task[e := t]) == Tasks(a, task)
  {
    forall i | 0 <= i < |a|
      ensures task[e := t][a[i]] == task[a[i]]
    {
      assert a[i] in a;
    }
  }

  /** The entries that a walk takes out: those in `hit`, or the first of them if `one`. */
  ghost function Taken(es: seq<Queue>, hit: set<Queue>, one: bool): seq<Queue> {
    if es == [] then []
    else if es[0] in hit then [es[0]] + if one then [] else Taken(es[1..], hit, one)
    else Taken(es[1..], hit, one)
  }

  /** Those that it leaves. */
  ghost function Left(es: seq<Queue>, hit: set<Queue>, one: bool): seq<Queue> {
    if es == [] then []
    else if es[0] in hit then (if one then es[1..] else Left(es[1..], hit, one))
    else [es[0]] + Left(es[1..], hit, one)
  }

  /** The first entry of `rest` moves from the ring with the header `q` to the end of the ring
      `other` with the header `rq`. */
  method MoveEntry(e: Queue, rq: Queue, q: Queue, ghost kept: seq<Queue>, ghost rest: seq<Queue>, ghost other: seq<Queue>)
    requires rest != [] && rest[0] == e
    requires var r := [q] + kept + rest; Ring(r) && Ring(other) && other[0] == rq && Apart(r, other)
    modifies [q] + kept + rest, other
    ensures var r', other' := [q] + kept + rest[1..], other + [e];
      && Ring(r') && Ring(other') && Apart(r', other')
      && Round(r', 1 + |kept|) == Round([q] + kept + rest, 2 + |kept|)
  {
    ghost var r, pos := [q] + kept + rest, 1 + |kept|;
    ghost var r' := [q] + kept + rest[1..];
    assert r' == r[..pos] + r[pos + 1..];
    NextPrevInverse(r, pos);
    NextEntry(r, pos);
    NextEntry(other, 0);
    assert forall x :: x in r' ==> x in r;
    assert e in r;
    Delete(e, r, pos, other);
    NextEntry(other, 0);
    InsertPrev(rq, e, other, 0, r');
  }

  /** One turn of the walk. */
  lemma Turn(kept: seq<Queue>, rest: seq<Queue>, woken: seq<Queue>, hit: set<Queue>, one: bool)
    requires rest != []
    ensures rest[0] in hit && one ==> kept + Left(rest, hit, one) == kept + rest[1..] && woken + Taken(rest, hit, one) == woken + [rest[0]]
    ensures rest[0] in hit && !one ==>
      && kept + Left(rest, hit, one) == kept + Left(rest[1..], hit, one)
      && woken + Taken(rest, hit, one) == woken + [rest[0]] + Taken(rest[1..], hit, one)
    ensures rest[0] !in hit ==>
      && kept + Left(rest, hit, one) == kept + [rest[0]] + Left(rest[1..], hit, one)
      && woken + Taken(rest, hit, one) == woken + Taken(rest[1..], hit, one)
  {
  }

  /** The parts of a ring that a walk has come to. */
  lemma Parts(q: Queue, kept: seq<Queue>, rest: seq<Queue>, other: seq<Queue>, woken: seq<Queue>)
    ensures [q] + (kept + rest) == [q] + kept + rest
    ensures rest != [] ==> [q] + (kept + [rest[0]]) + rest[1..] == [q] + kept + rest
    ensures rest != [] ==> forall x :: x in [q] + kept + rest[1..] ==> x in [q] + kept + rest
    ensures rest != [] ==> other + woken + [rest[0]] == other + (woken + [rest[0]])
    ensures rest != [] ==> rest[0] in [q] + kept + rest
    ensures forall i: nat :: i < |[q] + kept + rest| ==> ([q] + kept + rest)[i] in [q] + kept + rest
    ensures forall i: nat :: i < |other + woken| ==> (other + woken)[i] in other + woken
  {
  }

  /** The loop of set_flg: entries whose condition holds leave the wait queue with the header `q`
      and join the ready queue with the header `rq`. As their pointers change then, the walk goes
      on from the entry that came next before. */
  method WakeEntries(q: Queue, rq: Queue, hit: set<Queue>, one: bool, ghost r: seq<Queue>, ghost other: seq<Queue>)
    requires Ring(r) && r[0] == q && Ring(other) && other[0] == rq && Apart(r, other)
    modifies r, other
    ensures Ring([q] + Left(r[1..], hit, one))
    ensures Ring(other + Taken(r[1..], hit, one))
  {
    hide Ring, Apart, Round, Left, Taken;
    HeaderFirst(r, other);
    ghost var kept: seq<Queue>, rest, woken: seq<Queue> := [], r[1..], [];
    assert [q] + kept + rest == r && other + woken == other;
    NextEntry(r, 0);
    var next := q.next;
    while next != q
      invariant Ring([q] + kept + rest) && Ring(other + woken) && Apart([q] + kept + rest, other + woken)
      invariant forall x :: x in [q] + kept + rest ==> x in r
      invariant forall x :: x in other + woken ==> x in r || x in other
      invariant next == Round([q] + kept + rest, 1 + |kept|)
      invariant kept + Left(rest, hit, one) == Left(r[1..], hit, one)
      invariant woken + Taken(rest, hit, one) == Taken(r[1..], hit, one)
      decreases |rest|
    {
      InTheMiddle([q] + kept + rest, 1 + |kept|);
      Turn(kept, rest, woken, hit, one);
      Parts(q, kept, rest, other, woken);
      var entry := next;
      NextEntry([q] + kept + rest, 1 + |kept|);
      next := next.next;
      if entry in hit {
        MoveEntry(entry, rq, q, kept, rest, other + woken);
        woken, rest := woken + [entry], rest[1..];
        if one {
          Parts(q, kept, rest, other, woken);
          return;
        }
      } else {
        kept, rest := kept + [entry], rest[1..];
      }
    }
    BackAtHeader([q] + kept + rest, 1 + |kept|);
    NoMore(kept, woken, hit, one);
    assert rest == [] && [q] + kept + [] == [q] + kept;
  }

  lemma NoMore(kept: seq<Queue>, woken: seq<Queue>, hit: set<Queue>, one: bool)
    ensures kept + Left([], hit, one) == kept && woken + Taken([], hit, one) == woken
  {
  }

  lemma HeaderFirst(r: seq<Queue>, other: seq<Queue>)
    requires Ring(r) && Ring(other)
    ensures |r| > 0 && |other| > 0 && Round(r, |r|) == r[0] && forall i: nat :: i < |r| ==> Round(r, i) == r[i]
  {
  }

  lemma InTheMiddle(r: seq<Queue>, pos: nat)
    requires Ring(r) && 0 < pos <= |r| && Round(r, pos) != r[0]
    ensures pos < |r| && Round(r, pos) == r[pos]
  {
  }

  lemma BackAtHeader(r: seq<Queue>, pos: nat)
    requires Ring(r) && 0 < pos <= |r| && Round(r, pos) == r[0]
    ensures pos == |r|
  {
  }
}
