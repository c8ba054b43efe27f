/** The naive bound of a control flow graph: `topo_sort` and the longest-path computation over its order. */
module Underestimate {
  import opened Dag
  import opened Wrappers
  import TopoSort
  import LeftOver
  import LongestPath

  /** DRAM cycles of the path over the edges of `t`. */
  function PathCost(base: real, weight: map<Edge, real>, t: Trace): real {
    if t == [] then base
    else
      var e := t[|t| - 1];
      PathCost(base, weight, t[..|t| - 1]) + LeftOver.Gain(weight, e)
  }

  function IndexOf(order: seq<nat>, v: nat): (i: nat)
    requires v in order
    ensures i < |order| && order[i] == v
  {
    if order[0] == v then 0 else 1 + IndexOf(order[1..], v)
  }

  lemma {:induction false} IndexUnique(order: seq<nat>, i: nat)
    requires TopoSort.NoRepeat(order) && i < |order|
    ensures IndexOf(order, order[i]) == i
  {
  }

  /** An edge named by the position of its source, and back. */
  function Numbered(order: seq<nat>, e: Edge): Edge {
    Edge(if e.src in order then IndexOf(order, e.src) else 0, e.taken)
  }

  function Named(order: seq<nat>, d: Edge): Edge {
    Edge(if d.src < |order| then order[d.src] else 0, d.taken)
  }

  /** The edges between sorted nodes. */
  function EdgesOf(g: TopoSort.Cfg, order: seq<nat>): set<Edge> {
    set i, b | 0 <= i < |order| && b in {true, false}
               && Edge(order[i], b) in g.succ && g.succ[Edge(order[i], b)] in order
      :: Edge(i, b)
  }

  function Target(g: TopoSort.Cfg, order: seq<nat>, d: Edge): nat {
    var e := Named(order, d);
    if e in g.succ && g.succ[e] in order then IndexOf(order, g.succ[e]) else 0
  }

  /** The sorted nodes, named by their positions. */
  function GraphOf(g: TopoSort.Cfg, order: seq<nat>, base: real, weight: map<Edge, real>): Graph
    requires g.fin in order
  {
    Graph(
      |order|,
      IndexOf(order, g.fin),
      map d | d in EdgesOf(g, order) :: Target(g, order, d),
      seq(|order|, j requires 0 <= j < |order| => PredsOf(g, order, order[j])),
      base,
      map d | d in EdgesOf(g, order) :: LeftOver.Gain(weight, Named(order, d)))
  }

  function PredsOf(g: TopoSort.Cfg, order: seq<nat>, v: nat): seq<Edge> {
    if v in g.preds then seq(|g.preds[v]|, k requires 0 <= k < |g.preds[v]| => Numbered(order, g.preds[v][k])) else []
  }

  /** What `topo_sort` leaves behind if the graph has no loops. */
  ghost predicate Ordered(g: TopoSort.Cfg, order: seq<nat>) {
    && g.Valid() && TopoSort.NoRepeat(order) && TopoSort.Topological(g, order)
    && g.fin in order && (forall v :: v in order ==> v in g.nodes && TopoSort.Wanted(g, v))
    && g.start != g.fin && (forall e :: e in g.succ ==> e.src != g.fin)
  }

  /** An edge between sorted nodes goes forward. */
  lemma {:induction false} Forward(g: TopoSort.Cfg, order: seq<nat>, e: Edge)
    requires Ordered(g, order) && e in g.succ && g.succ[e] in order
    ensures e.src in order && IndexOf(order, e.src) < IndexOf(order, g.succ[e])
    ensures Named(order, Numbered(order, e)) == e && Numbered(order, e) in EdgesOf(g, order)
  {
    var i := IndexOf(order, g.succ[e]);
    assert order[i] == g.succ[e];
    assert e.src in order[..i];
    var k :| 0 <= k < i && order[k] == e.src;
    IndexUnique(order, k);
    assert Edge(order[k], e.taken) == e;
  }

  lemma {:induction false} EdgeNamed(g: TopoSort.Cfg, order: seq<nat>, d: Edge)
    requires Ordered(g, order) && d in EdgesOf(g, order)
    ensures Named(order, d) in g.succ && g.succ[Named(order, d)] in order && d.src < |order|
    ensures Numbered(order, Named(order, d)) == d
    ensures d.src < Target(g, order, d) < |order| && d.src != IndexOf(order, g.fin)
  {
    IndexUnique(order, d.src);
    Forward(g, order, Named(order, d));
  }

  /** The start comes first, and nothing else is without predecessors. */
  lemma {:induction false} StartFirst(g: TopoSort.Cfg, order: seq<nat>)
    requires Ordered(g, order)
    ensures |order| > 0 && order[0] == g.start && IndexOf(order, g.fin) > 0
    ensures forall j :: 0 < j < |order| ==> order[j] in g.preds && g.preds[order[j]] != []
  {
    FirstIsStart(g, order);
    forall j | 0 < j < |order| ensures order[j] in g.preds && g.preds[order[j]] != [] {
      assert order[j] in g.nodes && order[j] != order[0];
    }
  }

  lemma {:induction false} FirstIsStart(g: TopoSort.Cfg, order: seq<nat>)
    requires Ordered(g, order)
    ensures |order| > 0 && order[0] == g.start
  {
    assert order[0] in g.nodes;
    if order[0] != g.start {
      HasPredecessor(g, order[0]);
    }
    assert forall e :: e in g.succ ==> g.succ[e] != order[0];
  }

  lemma {:induction false} HasPredecessor(g: TopoSort.Cfg, v: nat)
    requires g.Valid() && v in g.nodes && TopoSort.Wanted(g, v) && v != g.start
    ensures exists e :: e in g.succ && g.succ[e] == v
  {
    var e := g.preds[v][0];
    assert e in g.preds[v];
    assert e in g.succ && g.succ[e] == v;
  }

  lemma {:induction false} PredsMatch(g: TopoSort.Cfg, order: seq<nat>, j: nat, d: Edge)
    requires Ordered(g, order) && j < |order|
    ensures d in PredsOf(g, order, order[j]) <==> d in EdgesOf(g, order) && Target(g, order, d) == j
  {
    var v := order[j];
    assert v in order && v in g.nodes;
    IndexUnique(order, j);
    var ps := g.preds[v];
    if d in PredsOf(g, order, v) {
      var k :| 0 <= k < |ps| && Numbered(order, ps[k]) == d;
      assert ps[k] in ps;
      Forward(g, order, ps[k]);
    }
    if d in EdgesOf(g, order) && Target(g, order, d) == j {
      EdgeNamed(g, order, d);
      var e := Named(order, d);
      assert g.succ[e] == v && e in ps;
      var k :| 0 <= k < |ps| && ps[k] == e;
      assert PredsOf(g, order, v)[k] == d;
    }
  }

  ghost predicate EdgeRendered(g: TopoSort.Cfg, order: seq<nat>, weight: map<Edge, real>, h: Graph, d: Edge) {
    && (d in h.succ <==> d in EdgesOf(g, order))
    && (d in h.succ ==> h.succ[d] == Target(g, order, d) && Weight(h, d) == LeftOver.Gain(weight, Named(order, d)))
  }

  /** `h` is the sorted graph. */
  ghost predicate Renders(g: TopoSort.Cfg, order: seq<nat>, base: real, weight: map<Edge, real>, h: Graph) {
    && Ordered(g, order)
    && h.size == |order| && h.fin == IndexOf(order, g.fin) && h.base == base
    && (forall d {:trigger EdgeRendered(g, order, weight, h, d)} :: EdgeRendered(g, order, weight, h, d))
  }

  lemma {:induction false} RendersEdge(g: TopoSort.Cfg, order: seq<nat>, base: real, weight: map<Edge, real>, d: Edge)
    requires g.fin in order
    ensures EdgeRendered(g, order, weight, GraphOf(g, order, base, weight), d)
  {
  }

  lemma {:induction false} GraphRenders(g: TopoSort.Cfg, order: seq<nat>, base: real, weight: map<Edge, real>)
    requires Ordered(g, order)
    ensures Renders(g, order, base, weight, GraphOf(g, order, base, weight))
  {
    var h := GraphOf(g, order, base, weight);
    forall d ensures EdgeRendered(g, order, weight, h, d) {
      RendersEdge(g, order, base, weight, d);
    }
  }

  lemma {:induction false} GraphValid(g: TopoSort.Cfg, order: seq<nat>, base: real, weight: map<Edge, real>)
    requires Ordered(g, order)
    ensures GraphOf(g, order, base, weight).Valid()
  {
    var h := GraphOf(g, order, base, weight);
    GraphRenders(g, order, base, weight);
    EdgesForward(g, order, base, weight, h);
    GraphPreds(g, order, base, weight);
    StartFirst(g, order);
    assert h.fin < h.size && |h.preds| == h.size && h.weight.Keys == h.succ.Keys;
  }

  lemma {:induction false} EdgesForward(g: TopoSort.Cfg, order: seq<nat>, base: real, weight: map<Edge, real>,
                                        h: Graph)
    requires Renders(g, order, base, weight, h)
    ensures forall d :: d in h.succ ==> d.src < h.succ[d] < h.size
    ensures forall d :: d in h.succ ==> d.src != h.fin
  {
    forall d | d in h.succ ensures d.src < h.succ[d] < h.size && d.src != h.fin {
      assert EdgeRendered(g, order, weight, h, d);
      EdgeNamed(g, order, d);
    }
  }

  lemma {:induction false} GraphPreds(g: TopoSort.Cfg, order: seq<nat>, base: real, weight: map<Edge, real>)
    requires Ordered(g, order)
    ensures var h := GraphOf(g, order, base, weight);
      && (forall v, d :: 0 <= v < h.size ==> (d in h.preds[v] <==> d in h.succ && h.succ[d] == v))
      && (forall v :: 0 < v < h.size ==> h.preds[v] != [])
  {
    var h := GraphOf(g, order, base, weight);
    StartFirst(g, order);
    forall v, d | 0 <= v < h.size ensures d in h.preds[v] <==> d in h.succ && h.succ[d] == v {
      PredsMatch(g, order, v, d);
      PredsAt(g, order, base, weight, v);
    }
    forall v | 0 < v < h.size ensures h.preds[v] != [] {
      PredsAt(g, order, base, weight, v);
    }
  }

  lemma {:induction false} PredsAt(g: TopoSort.Cfg, order: seq<nat>, base: real, weight: map<Edge, real>, v: nat)
    requires g.fin in order && v < |order|
    ensures |GraphOf(g, order, base, weight).preds| == |order|
    ensures GraphOf(g, order, base, weight).preds[v] == PredsOf(g, order, order[v])
    ensures order[v] in g.preds ==> |PredsOf(g, order, order[v])| == |g.preds[order[v]]|
  {
  }

  function NumberedTrace(order: seq<nat>, t: Trace): (r: Trace)
    ensures |r| == |t|
  {
    seq(|t|, i requires 0 <= i < |t| => Numbered(order, t[i]))
  }

  function NamedTrace(order: seq<nat>, t: Trace): (r: Trace)
    ensures |r| == |t|
  {
    seq(|t|, i requires 0 <= i < |t| => Named(order, t[i]))
  }

  /** Every path of the control flow graph is a walk of the sorted one. */
  lemma {:induction false} PathIsWalk(g: TopoSort.Cfg, order: seq<nat>, base: real, weight: map<Edge, real>, h: Graph,
                                      before: Trace, t: Trace, v: nat)
    requires Renders(g, order, base, weight, h) && TopoSort.LeadsOn(g, t, v) && v in order
    requires Walk(h, before, IndexOf(order, v))
    ensures Walk(h, before + NumberedTrace(order, t), h.fin)
    decreases |t|
  {
    if t == [] {
      assert before + NumberedTrace(order, t) == before;
    } else {
      var e := t[0];
      var d := Numbered(order, e);
      TopoSort.LeadsPlaced(g, order, t[1..], g.succ[e]);
      StepWalks(g, order, base, weight, h, before, e);
      PathIsWalk(g, order, base, weight, h, before + [d], t[1..], g.succ[e]);
      assert before + NumberedTrace(order, t) == before + [d] + NumberedTrace(order, t[1..]);
    }
  }

  lemma {:induction false} StepWalks(g: TopoSort.Cfg, order: seq<nat>, base: real, weight: map<Edge, real>,
                                     h: Graph, before: Trace, e: Edge)
    requires Renders(g, order, base, weight, h) && e in g.succ && g.succ[e] in order && e.src in order
    requires Walk(h, before, IndexOf(order, e.src))
    ensures Walk(h, before + [Numbered(order, e)], IndexOf(order, g.succ[e]))
  {
    var d := Numbered(order, e);
    Forward(g, order, e);
    assert EdgeRendered(g, order, weight, h, d);
    WalkExtend(h, before, d);
  }

  /** And the other way round. */
  lemma {:induction false} WalkIsPath(g: TopoSort.Cfg, order: seq<nat>, base: real, weight: map<Edge, real>, h: Graph,
                                      d: Trace, v: nat, after: Trace)
    requires Renders(g, order, base, weight, h) && v < |order| && Walk(h, d, v)
    requires TopoSort.LeadsOn(g, after, order[v])
    ensures TopoSort.LeadsOn(g, NamedTrace(order, d) + after, g.start)
    decreases |d|
  {
    if d == [] {
      StartFirst(g, order);
      assert NamedTrace(order, d) + after == after;
    } else {
      var l, init := d[|d| - 1], d[..|d| - 1];
      var e := Named(order, l);
      StepLeads(g, order, base, weight, h, l, after);
      WalkIsPath(g, order, base, weight, h, init, l.src, [e] + after);
      NamedLast(order, d, after);
    }
  }

  lemma {:induction false} NamedLast(order: seq<nat>, d: Trace, after: Trace)
    requires d != []
    ensures NamedTrace(order, d) + after == NamedTrace(order, d[..|d| - 1]) + ([Named(order, d[|d| - 1])] + after)
    ensures NamedTrace(order, d)[..|d| - 1] == NamedTrace(order, d[..|d| - 1])
  {
  }

  lemma {:induction false} StepLeads(g: TopoSort.Cfg, order: seq<nat>, base: real, weight: map<Edge, real>,
                                     h: Graph, l: Edge, after: Trace)
    requires Renders(g, order, base, weight, h) && l in h.succ && h.succ[l] < |order|
    requires TopoSort.LeadsOn(g, after, order[h.succ[l]])
    ensures l.src < |order| && TopoSort.LeadsOn(g, [Named(order, l)] + after, order[l.src])
  {
    var e := Named(order, l);
    assert EdgeRendered(g, order, weight, h, l);
    EdgeNamed(g, order, l);
    assert ([e] + after)[1..] == after;
  }

  lemma {:induction false} SameCost(g: TopoSort.Cfg, order: seq<nat>, base: real, weight: map<Edge, real>, h: Graph,
                                    d: Trace, v: nat)
    requires Renders(g, order, base, weight, h) && Walk(h, d, v)
    ensures Cost(h, d) == PathCost(base, weight, NamedTrace(order, d))
  {
    if d != [] {
      var l, init := d[|d| - 1], d[..|d| - 1];
      SameCost(g, order, base, weight, h, init, l.src);
      assert EdgeRendered(g, order, weight, h, l);
      NamedLast(order, d, []);
    }
  }

  lemma {:induction false} RoundTrip(g: TopoSort.Cfg, order: seq<nat>, t: Trace, v: nat)
    requires Ordered(g, order) && TopoSort.LeadsOn(g, t, v)
    ensures NamedTrace(order, NumberedTrace(order, t)) == t
  {
    if t != [] {
      RoundTrip(g, order, t[1..], g.succ[t[0]]);
      TopoSort.LeadsPlaced(g, order, t[1..], g.succ[t[0]]);
      Forward(g, order, t[0]);
      NumberedFirst(order, t);
      NamedFirst(order, Numbered(order, t[0]), NumberedTrace(order, t[1..]));
    }
  }

  lemma {:induction false} NumberedFirst(order: seq<nat>, t: Trace)
    requires t != []
    ensures NumberedTrace(order, t) == [Numbered(order, t[0])] + NumberedTrace(order, t[1..])
  {
  }

  lemma {:induction false} NamedFirst(order: seq<nat>, d: Edge, t: Trace)
    ensures NamedTrace(order, [d] + t) == [Named(order, d)] + NamedTrace(order, t)
  {
  }

  // The computation on the control flow graph and that on the sorted graph.

  /** The node at position `i` has the same entry in both. */
  ghost predicate Mirrored(order: seq<nat>, best: map<nat, real>, entries: map<nat, real>, i: nat) {
    i < |order| ==>
      && (order[i] in best <==> i in entries)
      && (i in entries && order[i] in best ==> best[order[i]] == entries[i])
  }

  ghost predicate Mirrors(order: seq<nat>, best: map<nat, real>, entries: map<nat, real>) {
    forall i: nat {:trigger Mirrored(order, best, entries, i)} :: Mirrored(order, best, entries, i)
  }

  lemma {:induction false} EdgeSorted(g: TopoSort.Cfg, order: seq<nat>, base: real, weight: map<Edge, real>, h: Graph,
                                      k: nat, b: bool)
    requires Renders(g, order, base, weight, h) && k < |order|
    ensures Edge(k, b) in h.succ <==> Edge(order[k], b) in g.succ && g.succ[Edge(order[k], b)] in order
    ensures Edge(k, b) in h.succ ==>
      && k < h.succ[Edge(k, b)] < |order| && order[h.succ[Edge(k, b)]] == g.succ[Edge(order[k], b)]
      && Weight(h, Edge(k, b)) == LeftOver.Gain(weight, Edge(order[k], b))
  {
    var d := Edge(k, b);
    assert EdgeRendered(g, order, weight, h, d);
    if d in EdgesOf(g, order) {
      EdgeNamed(g, order, d);
    }
  }

  lemma {:induction false} MirrorEdge(g: TopoSort.Cfg, order: seq<nat>, base: real, weight: map<Edge, real>, h: Graph,
                                      best: map<nat, real>, entries: map<nat, real>, k: nat, b: bool, c: real)
    requires Renders(g, order, base, weight, h) && k < |order| && k in entries && entries[k] == c
    requires Mirrors(order, best, entries)
    ensures Mirrors(order, LeftOver.Extended(g, weight, best, c, Edge(order[k], b)),
                    LongestPath.RelaxIf(h, entries, Edge(k, b)))
    ensures var entries' := LongestPath.RelaxIf(h, entries, Edge(k, b)); k in entries' && entries'[k] == c
  {
    EdgeSorted(g, order, base, weight, h, k, b);
    forall i: nat
      ensures Mirrored(order, LeftOver.Extended(g, weight, best, c, Edge(order[k], b)),
                       LongestPath.RelaxIf(h, entries, Edge(k, b)), i)
    {
      MirrorAt(g, order, weight, h, best, entries, k, b, c, i);
    }
  }

  lemma {:induction false} MirrorAt(g: TopoSort.Cfg, order: seq<nat>, weight: map<Edge, real>, h: Graph,
                                    best: map<nat, real>, entries: map<nat, real>, k: nat, b: bool, c: real, i: nat)
    requires TopoSort.NoRepeat(order) && k < |order| && k in entries && entries[k] == c && Mirrors(order, best, entries)
    requires Edge(k, b) in h.succ <==> Edge(order[k], b) in g.succ && g.succ[Edge(order[k], b)] in order
    requires Edge(k, b) in h.succ ==>
      && k < h.succ[Edge(k, b)] < |order| && order[h.succ[Edge(k, b)]] == g.succ[Edge(order[k], b)]
      && Weight(h, Edge(k, b)) == LeftOver.Gain(weight, Edge(order[k], b))
    ensures Mirrored(order, LeftOver.Extended(g, weight, best, c, Edge(order[k], b)),
                     LongestPath.RelaxIf(h, entries, Edge(k, b)), i)
  {
    assert Mirrored(order, best, entries, i);
    if Edge(k, b) in h.succ {
      assert Mirrored(order, best, entries, h.succ[Edge(k, b)]);
    } else if i < |order| && Edge(order[k], b) in g.succ {
      assert order[i] in order;
    }
  }

  lemma {:induction false} MirrorNode(g: TopoSort.Cfg, order: seq<nat>, base: real, weight: map<Edge, real>, h: Graph,
                                      best: map<nat, real>, entries: map<nat, real>, k: nat)
    requires Renders(g, order, base, weight, h) && k < |order| && k in entries
    requires Mirrors(order, best, entries)
    ensures LeftOver.ExtendNode(g, weight, best, order[k]).Some?
    ensures Mirrors(order, LeftOver.ExtendNode(g, weight, best, order[k]).value, LongestPath.RelaxNode(h, entries, k))
  {
    assert Mirrored(order, best, entries, k);
    var c := best[order[k]];
    MirrorEdge(g, order, base, weight, h, best, entries, k, true, c);
    var best', entries' := LeftOver.Extended(g, weight, best, c, Edge(order[k], true)),
                           LongestPath.RelaxIf(h, entries, Edge(k, true));
    MirrorEdge(g, order, base, weight, h, best', entries', k, false, c);
  }

  /** After the placed nodes both have the same entries. */
  lemma {:induction false} AlongMirrors(g: TopoSort.Cfg, order: seq<nat>, base: real, weight: map<Edge, real>, h: Graph,
                                        k: nat)
    requires Renders(g, order, base, weight, h) && h.Valid() && k <= |order|
    ensures LeftOver.Along(g, base, weight, order[..k]).Some?
    ensures Mirrors(order, LeftOver.Along(g, base, weight, order[..k]).value, LongestPath.Entries(h, k))
  {
    if k == 0 {
      StartFirst(g, order);
      forall i: nat ensures Mirrored(order, map[g.start := base], map[0 := h.base], i) {
      }
    } else {
      AlongMirrors(g, order, base, weight, h, k - 1);
      assert order[..k][..k - 1] == order[..k - 1] && order[..k][k - 1] == order[k - 1];
      LongestPath.EntriesTable(h, k - 1);
      MirrorNode(g, order, base, weight, h, LeftOver.Along(g, base, weight, order[..k - 1]).value,
                 LongestPath.Entries(h, k - 1), k - 1);
    }
  }

  /** The entry of the final node, whatever follows behind the placed nodes. */
  lemma {:induction false} EntryOfFinal(g: TopoSort.Cfg, order: seq<nat>, base: real, weight: map<Edge, real>, h: Graph)
    requires Renders(g, order, base, weight, h) && h.Valid()
    ensures LeftOver.Along(g, base, weight, order).Some? && g.fin in LeftOver.Along(g, base, weight, order).value
    ensures h.fin in LongestPath.Entries(h, h.size)
    ensures LeftOver.Along(g, base, weight, order).value[g.fin] == LongestPath.Entries(h, h.size)[h.fin]
  {
    AlongMirrors(g, order, base, weight, h, |order|);
    assert order[..|order|] == order;
    LongestPath.EntryLargest(h);
    assert Mirrored(order, LeftOver.Along(g, base, weight, order).value, LongestPath.Entries(h, h.size), h.fin);
  }

  /** `Bound` is the largest cost of a path; `NullPath` is where the code follows a null pointer. */
  datatype Answer = NotLoopFree | NullPath | Bound(m: real)

  /** `m` is the largest cost of a path from the start to the final node. */
  ghost predicate Largest(g: TopoSort.Cfg, base: real, weight: map<Edge, real>, m: real) {
    && (exists t :: TopoSort.LeadsOn(g, t, g.start) && PathCost(base, weight, t) == m)
    && (forall t :: TopoSort.LeadsOn(g, t, g.start) ==> PathCost(base, weight, t) <= m)
  }

  /** The loop over all nodes; without a result it has followed a null pointer. */
  method ExtendAll(g: TopoSort.Cfg, base: real, weight: map<Edge, real>, all: seq<nat>)
    returns (r: Option<map<nat, real>>)
    ensures r == LeftOver.Along(g, base, weight, all)
  {
    var best := map[g.start := base];
    for k := 0 to |all|
      invariant LeftOver.Along(g, base, weight, all[..k]) == Some(best)
    {
      assert all[..k + 1][..k] == all[..k] && all[..k + 1][k] == all[k];
      var next := LeftOver.ExtendNode(g, weight, best, all[k]);
      if next.None? {
        LeftOver.NoneStays(g, base, weight, all[..k + 1], all[k + 1..]);
        assert all == all[..k + 1] + all[k + 1..];
        return None;
      }
      best := next.value;
    }
    assert all[..|all|] == all;
    return Some(best);
  }

  /** `topo_sort` and `underestimate_packetrate`: no answer if some walk back from the final node need never end;
  else the largest DRAM cost of all paths, unless a left-over node has nothing to go on from. */
  method UnderestimatePacketrate(g: TopoSort.Cfg, base: real, weight: map<Edge, real>)
    returns (r: Answer, ghost placed: seq<nat>)
    requires g.Valid() && g.start != g.fin && forall e :: e in g.succ ==> e.src != g.fin
    ensures r.NotLoopFree? <==> exists c :: TopoSort.Trap(g, c)
    ensures r.Bound? ==> Largest(g, base, weight, r.m)
    ensures !r.NotLoopFree? ==> LeftOver.Placement(g, placed) && g.fin in placed
    ensures r.NullPath? ==> !LeftOver.Independent(g, placed)
  {
    placed := [];
    var s, n := TopoSort.Sort(g);
    if s.NotLoopFree? {
      return NotLoopFree, placed;
    }
    var all := s.order;
    placed := all[..n];
    SortedOrdered(g, all, n);
    OrderedPlacement(g, placed, all);
    var best := ExtendAll(g, base, weight, all);
    if best.None? {
      LeftOver.DefinedExactly(g, base, weight, placed);
      return NullPath, placed;
    }
    FinalLargest(g, base, weight, placed, all);
    r := Bound(best.value[g.fin]);
  }

  lemma {:induction false} OrderedPlacement(g: TopoSort.Cfg, placed: seq<nat>, all: seq<nat>)
    requires Ordered(g, placed) && |placed| <= |all| && all[..|placed|] == placed && TopoSort.NoRepeat(all)
    requires forall v :: v in all <==> v in g.nodes
    ensures LeftOver.Placement(g, placed) && LeftOver.Completion(g, placed, all)
  {
    StartFirst(g, placed);
    forall k | 0 < k < |placed| ensures LeftOver.HasPred(g, placed[k]) {
      HasPredecessor(g, placed[k]);
    }
  }

  lemma {:induction false} FinalLargest(g: TopoSort.Cfg, base: real, weight: map<Edge, real>, placed: seq<nat>,
                                        all: seq<nat>)
    requires Ordered(g, placed) && LeftOver.Placement(g, placed) && LeftOver.Completion(g, placed, all)
    requires LeftOver.Along(g, base, weight, all).Some?
    ensures g.fin in LeftOver.Along(g, base, weight, all).value
    ensures Largest(g, base, weight, LeftOver.Along(g, base, weight, all).value[g.fin])
  {
    var h := GraphOf(g, placed, base, weight);
    GraphValid(g, placed, base, weight);
    GraphRenders(g, placed, base, weight);
    EntryOfFinal(g, placed, base, weight, h);
    LeftOver.KeepsPlaced(g, base, weight, placed, all, g.fin);
    LongestPath.EntryLargest(h);
    MaximumCarries(g, placed, base, weight, h, LongestPath.Entries(h, h.size)[h.fin]);
  }

  lemma {:induction false} SortedOrdered(g: TopoSort.Cfg, order: seq<nat>, n: nat)
    requires g.Valid() && g.start != g.fin && forall e :: e in g.succ ==> e.src != g.fin
    requires TopoSort.NoRepeat(order) && n <= |order| && TopoSort.Topological(g, order[..n])
    requires forall v :: v in order <==> v in g.nodes
    requires forall v :: v in order[..n] ==> TopoSort.Wanted(g, v)
    requires forall v, t :: TopoSort.LeadsOn(g, t, v) ==> v in order[..n]
    ensures Ordered(g, order[..n])
  {
    assert TopoSort.LeadsOn(g, [], g.fin);
  }

  lemma {:induction false} MaximumCarries(g: TopoSort.Cfg, order: seq<nat>, base: real, weight: map<Edge, real>,
                                          h: Graph, m: real)
    requires Renders(g, order, base, weight, h)
    requires exists t :: Walk(h, t, h.fin) && Cost(h, t) == m
    requires forall t :: Walk(h, t, h.fin) ==> Cost(h, t) <= m
    ensures exists t :: TopoSort.LeadsOn(g, t, g.start) && PathCost(base, weight, t) == m
    ensures forall t :: TopoSort.LeadsOn(g, t, g.start) ==> PathCost(base, weight, t) <= m
  {
    var d :| Walk(h, d, h.fin) && Cost(h, d) == m;
    WalkIsPath(g, order, base, weight, h, d, h.fin, []);
    SameCost(g, order, base, weight, h, d, h.fin);
    assert NamedTrace(order, d) + [] == NamedTrace(order, d);
    forall t | TopoSort.LeadsOn(g, t, g.start) ensures PathCost(base, weight, t) <= m {
      StartFirst(g, order);
      IndexUnique(order, 0);
      PathIsWalk(g, order, base, weight, h, [], t, g.start);
      RoundTrip(g, order, t, g.start);
      var w := NumberedTrace(order, t);
      assert [] + w == w;
      SameCost(g, order, base, weight, h, w, h.fin);
    }
  }
}
