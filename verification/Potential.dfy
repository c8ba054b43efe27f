/** Why the enumeration terminates: reading a path from an edge adds at most one path to each
outgoing edge of its target, and an edge weighs more than everything it can feed. */
module Potential {
  import opened Dag
  import opened PathQueues
  import opened Reading

  /** One more than the weight of all edges leaving the target of `e`. */
  ghost function Burden(g: Graph, e: Edge): nat
    requires g.Valid() && e in g.succ
    decreases g.size - g.succ[e], 2
  {
    1 + Outgoing(g, g.succ[e])
  }

  ghost function Outgoing(g: Graph, v: nat): nat
    requires g.Valid() && v < g.size
    decreases g.size - v, 1
  {
    Leaving(g, Edge(v, true)) + Leaving(g, Edge(v, false))
  }

  ghost function Leaving(g: Graph, e: Edge): nat
    requires g.Valid() && e.src < g.size
    decreases g.size - e.src, 0
  {
    if e in g.succ then Burden(g, e) else 0
  }

  /** `n` paths that weigh `w` each. */
  ghost function Scale(w: nat, n: nat): nat {
    if n == 0 then 0 else w + Scale(w, n - 1)
  }

  ghost function Part(g: Graph, qs: Queues, e: Edge): nat
    requires g.Valid() && e.src < g.size
  {
    if e in g.succ then Scale(Burden(g, e), |qs.Pend(g, e)|) else 0
  }

  /** Total weight of what the edges leaving the first `n` nodes still have to read. */
  ghost function Total(g: Graph, qs: Queues, n: nat): nat
    requires g.Valid() && n <= g.size
  {
    if n == 0 then 0
    else Total(g, qs, n - 1) + Part(g, qs, Edge(n - 1, true)) + Part(g, qs, Edge(n - 1, false))
  }

  lemma {:induction false} TotalShrinks(g: Graph, qs: Queues, qs': Queues, n: nat)
    requires g.Valid() && n <= g.size
    requires forall e :: e in g.succ ==> |qs'.Pend(g, e)| <= |qs.Pend(g, e)|
    ensures Total(g, qs', n) <= Total(g, qs, n)
  {
    if n > 0 {
      TotalShrinks(g, qs, qs', n - 1);
      PartShrinks(g, qs, qs', Edge(n - 1, true));
      PartShrinks(g, qs, qs', Edge(n - 1, false));
    }
  }

  lemma {:induction false} PartShrinks(g: Graph, qs: Queues, qs': Queues, e: Edge)
    requires g.Valid() && e.src < g.size
    requires e in g.succ ==> |qs'.Pend(g, e)| <= |qs.Pend(g, e)|
    ensures Part(g, qs', e) <= Part(g, qs, e)
  {
    if e in g.succ {
      ScaleMonotone(Burden(g, e), |qs'.Pend(g, e)|, |qs.Pend(g, e)|);
    }
  }

  lemma {:induction false} ScaleMonotone(w: nat, a: nat, b: nat)
    requires a <= b
    ensures Scale(w, a) <= Scale(w, b)
  {
    if a < b {
      ScaleMonotone(w, a, b - 1);
    }
  }

  lemma {:induction false} PartRead(g: Graph, merging: bool, qs: Queues, m: Edge, y: Item, drop: bool, e: Edge)
    requires g.Valid() && m in g.succ && qs.node == g.succ[m] && qs.Pq(m) != [] && e.src < g.size
    ensures Part(g, Read(merging, qs, m, y, drop), e) + (if e == m then Burden(g, m) else 0)
         <= Part(g, qs, e) + (if e.src == g.succ[m] then Leaving(g, e) else 0)
  {
    if e in g.succ {
      var qs' := Read(merging, qs, m, y, drop);
      PendAfter(g, merging, qs, m, y, drop, e);
      if e == m {
        assert |qs.Pend(g, m)| == |qs'.Pend(g, m)| + 1;
      } else if e.src == g.succ[m] && !drop {
        PushLength(merging, qs.buffer, [y]);
        ScaleMonotone(Burden(g, e), |qs'.Pend(g, e)|, |qs.Pend(g, e)| + 1);
      }
    }
  }

  lemma {:induction false} PushLength(merging: bool, a: seq<Item>, b: seq<Item>)
    ensures |Push(merging, a, b)| <= |a| + |b|
  {
  }

  lemma {:induction false} TotalRead(g: Graph, merging: bool, qs: Queues, m: Edge, y: Item, drop: bool, n: nat)
    requires g.Valid() && m in g.succ && qs.node == g.succ[m] && qs.Pq(m) != [] && n <= g.size
    ensures Total(g, Read(merging, qs, m, y, drop), n) + (if m.src < n then Burden(g, m) else 0)
         <= Total(g, qs, n) + (if g.succ[m] < n then Outgoing(g, g.succ[m]) else 0)
  {
    if n > 0 {
      TotalRead(g, merging, qs, m, y, drop, n - 1);
      PartRead(g, merging, qs, m, y, drop, Edge(n - 1, true));
      PartRead(g, merging, qs, m, y, drop, Edge(n - 1, false));
    }
  }

  /** Every path read brings the enumeration closer to its end. */
  lemma {:induction false} ReadProgress(g: Graph, merging: bool, qs: Queues, m: Edge, y: Item, drop: bool)
    requires g.Valid() && m in g.succ && qs.node == g.succ[m] && qs.Pq(m) != []
    ensures Total(g, Read(merging, qs, m, y, drop), g.size) < Total(g, qs, g.size)
  {
    TotalRead(g, merging, qs, m, y, drop, g.size);
  }
}
