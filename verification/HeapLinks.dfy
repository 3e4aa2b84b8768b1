/**
 Time events, and the double link between heap nodes and time event blocks: a node
 names its block, and the block knows the node's position.
 */
module HeapLinks {
  import opened WordTime

  /** A time event block, named by the one object that owns it. */
  datatype Event = TaskTimer(tsk: nat) | CycTimer(cyc: nat) | AlmTimer(alm: nat)

  /** The callback functions that are registered, with their argument. */
  datatype Callback = WaitTmout(tsk: nat) | WaitTmoutOk(tsk: nat) | CallCychdr(cyc: nat) | CallAlmhdr(alm: nat)

  /** TMEVTB: the position in the heap and the callback. */
  datatype Block = Block(index: nat, callback: Callback)

  /** TMEVTN: a heap node. */
  datatype Node = Node(time: nat, event: Event)

  /** A registered event: its unbounded time and its callback. */
  datatype Pending = Pending(time: nat, callback: Callback)

  /** Node `i` holds an event of `m`, with its time as a word, and its block points back. */
  ghost predicate NodeOk(n: Node, t: int, i: nat, bs: map<Event, Block>, m: map<Event, Pending>, w: Width) {
    && n.event in m && n.event in bs
    && bs[n.event].index == i
    && t == m[n.event].time && n.time == Word(t, w)
  }

  /** The block of `e` points to the node that holds it. */
  ghost predicate BlockOk(e: Event, ns: seq<Node>, bs: map<Event, Block>, m: map<Event, Pending>)
    requires e in m
  {
    && e in bs && bs[e].callback == m[e].callback
    && 1 <= bs[e].index <= |ns| && ns[bs[e].index - 1].event == e
  }

  /** Every node but the one at `hole` holds an event of `m`; every event of `m` is in the
      node its block points to, which is not the hole. `ts` lists the unbounded node times. */
  ghost predicate Linked(ns: seq<Node>, ts: seq<int>, bs: map<Event, Block>, hole: nat, m: map<Event, Pending>, w: Width) {
    && |ts| == |ns|
    && (forall i :: 0 <= i < |ns| && i != hole - 1 ==> NodeOk(ns[i], ts[i], i + 1, bs, m, w))
    && (forall e :: e in m ==> BlockOk(e, ns, bs, m) && bs[e].index != hole)
  }

  /** Moving a node into the hole, and telling its block, moves the hole. */
  lemma LinkedMove(ns: seq<Node>, ts: seq<int>, bs: map<Event, Block>, from: nat, hole: nat, m: map<Event, Pending>, w: Width)
    requires Linked(ns, ts, bs, hole, m, w)
    requires 1 <= from <= |ns| && 1 <= hole <= |ns| && from != hole
    ensures var e := ns[from - 1].event;
      && e in m && e in bs
      && Linked(ns[hole - 1 := ns[from - 1]], ts[hole - 1 := ts[from - 1]], bs[e := bs[e].(index := hole)], from, m, w)
  {
    assert NodeOk(ns[from - 1], ts[from - 1], from, bs, m, w);
    var e := ns[from - 1].event;
    var ns', ts', bs' := ns[hole - 1 := ns[from - 1]], ts[hole - 1 := ts[from - 1]], bs[e := bs[e].(index := hole)];
    forall i | 0 <= i < |ns'| && i != from - 1
      ensures NodeOk(ns'[i], ts'[i], i + 1, bs', m, w)
    {
      if i != hole - 1 {
        assert NodeOk(ns[i], ts[i], i + 1, bs, m, w);
      }
    }
    forall x | x in m
      ensures BlockOk(x, ns', bs', m) && bs'[x].index != from
    {
      assert BlockOk(x, ns, bs, m);
    }
  }

  /** Filling the hole with an event that is not there yet registers it. */
  lemma LinkedPut(ns: seq<Node>, ts: seq<int>, bs: map<Event, Block>, hole: nat, m: map<Event, Pending>, w: Width, n: Node, t: nat)
    requires Linked(ns, ts, bs, hole, m, w)
    requires 1 <= hole <= |ns| && n.event !in m && n.event in bs && n.time == Word(t, w)
    ensures Linked(ns[hole - 1 := n], ts[hole - 1 := t], bs[n.event := bs[n.event].(index := hole)], |ns| + 1,
                   m[n.event := Pending(t, bs[n.event].callback)], w)
  {
    var ns', ts', bs' := ns[hole - 1 := n], ts[hole - 1 := t], bs[n.event := bs[n.event].(index := hole)];
    var m' := m[n.event := Pending(t, bs[n.event].callback)];
    forall i | 0 <= i < |ns'|
      ensures NodeOk(ns'[i], ts'[i], i + 1, bs', m', w)
    {
      if i != hole - 1 {
        assert NodeOk(ns[i], ts[i], i + 1, bs, m, w);
      }
    }
    forall x | x in m'
      ensures BlockOk(x, ns', bs', m')
    {
      if x != n.event {
        assert BlockOk(x, ns, bs, m);
      }
    }
  }

  /** One more node, whatever it holds, is a hole. */
  lemma LinkedExtend(ns: seq<Node>, ts: seq<int>, bs: map<Event, Block>, m: map<Event, Pending>, w: Width, n: Node, t: int)
    requires Linked(ns, ts, bs, |ns| + 1, m, w)
    ensures Linked(ns + [n], ts + [t], bs, |ns| + 1, m, w)
  {
    forall i | 0 <= i < |ns|
      ensures NodeOk((ns + [n])[i], (ts + [t])[i], i + 1, bs, m, w)
    {
      assert NodeOk(ns[i], ts[i], i + 1, bs, m, w);
    }
    forall x | x in m
      ensures BlockOk(x, ns + [n], bs, m) && bs[x].index != |ns| + 1
    {
      assert BlockOk(x, ns, bs, m);
    }
  }

  /** The block of an event that is not registered does not matter. */
  lemma LinkedForget(ns: seq<Node>, ts: seq<int>, bs: map<Event, Block>, hole: nat, m: map<Event, Pending>, w: Width, e: Event, b: Block)
    requires Linked(ns, ts, bs, hole, m, w) && e !in m
    ensures Linked(ns, ts, bs[e := b], hole, m, w)
  {
    forall j | 0 <= j < |ns| && j != hole - 1
      ensures NodeOk(ns[j], ts[j], j + 1, bs[e := b], m, w)
    {
      assert NodeOk(ns[j], ts[j], j + 1, bs, m, w);
    }
    forall x | x in m
      ensures BlockOk(x, ns, bs[e := b], m) && bs[e := b][x].index != hole
    {
      assert BlockOk(x, ns, bs, m);
    }
  }

  /** Taking away an event and the last node leaves a hole where the event was. */
  lemma LinkedOpen(ns: seq<Node>, ts: seq<int>, bs: map<Event, Block>, m: map<Event, Pending>, w: Width, e: Event)
    requires Linked(ns, ts, bs, |ns| + 1, m, w) && e in m
    ensures ns != [] && e in bs && 1 <= bs[e].index <= |ns|
    ensures var last := ns[|ns| - 1].event;
      && last in m && last in bs && ns[|ns| - 1].time == Word(m[last].time, w) && ts[|ns| - 1] == m[last].time
      && bs[last].callback == m[last].callback
      && (e == last <==> bs[e].index == |ns|)
      && Linked(ns[..|ns| - 1], ts[..|ns| - 1], bs, bs[e].index, m - {e, last}, w)
  {
    assert BlockOk(e, ns, bs, m);
    var k := |ns| - 1;
    var last := ns[k].event;
    assert NodeOk(ns[k], ts[k], k + 1, bs, m, w);
    assert BlockOk(last, ns, bs, m);
    var m' := m - {e, last};
    forall i | 0 <= i < k && i != bs[e].index - 1
      ensures NodeOk(ns[..k][i], ts[..k][i], i + 1, bs, m', w)
    {
      assert NodeOk(ns[i], ts[i], i + 1, bs, m, w);
    }
    forall x | x in m'
      ensures BlockOk(x, ns[..k], bs, m') && bs[x].index != bs[e].index
    {
      assert BlockOk(x, ns, bs, m);
    }
  }
}
