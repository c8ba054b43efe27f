/** Loop-free control flow graphs and the walks through them.

A node is named by its position in the vector `nodes` that `cfg::topo_sort` leaves
behind, so every edge leads from a smaller to a larger name and the start node is 0.
An edge is named by its source and by the branch outcome that selects it, which is how
`pred_data` and `succ_data` refer to each other. */
module Dag {

  datatype Edge = Edge(src: nat, taken: bool)

  type Trace = seq<Edge>

  datatype Graph = Graph(
    size: nat,                 // number of nodes
    fin: nat,                  // the node every complete path ends in
    succ: map<Edge, nat>,      // successor_true / successor_false
    preds: seq<seq<Edge>>,     // the predecessors vector of each node
    base: real,                // DRAM cycles of the path that has only entered the start block
    weight: map<Edge, real>)   // DRAM cycles added by extending a path over an edge
  {
    ghost predicate Valid() {
      && 0 < fin < size
      && |preds| == size
      && weight.Keys == succ.Keys
      && (forall e :: e in succ ==> e.src < succ[e] < size)
      && (forall e :: e in succ ==> e.src != fin)
      && (forall v, e :: 0 <= v < size ==> (e in preds[v] <==> e in succ && succ[e] == v))
      && (forall v :: 0 < v < size ==> preds[v] != [])
    }
  }

  /** `t` leads from the start node to `v`. */
  predicate Walk(g: Graph, t: Trace, v: nat) {
    if t == [] then v == 0
    else
      var e := t[|t| - 1];
      e in g.succ && g.succ[e] == v && Walk(g, t[..|t| - 1], e.src)
  }

  function Weight(g: Graph, e: Edge): real {
    if e in g.weight then g.weight[e] else 0.0
  }

  /** DRAM cycles of the path that took the edges of `t`. */
  function Cost(g: Graph, t: Trace): real {
    if t == [] then g.base else Cost(g, t[..|t| - 1]) + Weight(g, t[|t| - 1])
  }

  lemma {:induction false} WalkEdges(g: Graph, t: Trace, v: nat)
    requires g.Valid() && Walk(g, t, v)
    ensures forall e :: e in t ==> e in g.succ && e.src < v
    ensures v < g.size
  {
    if t != [] {
      var e := t[|t| - 1];
      WalkEdges(g, t[..|t| - 1], e.src);
      assert t == t[..|t| - 1] + [e];
    }
  }

  lemma {:induction false} WalkExtend(g: Graph, t: Trace, e: Edge)
    requires Walk(g, t, e.src) && e in g.succ
    ensures Walk(g, t + [e], g.succ[e])
    ensures Cost(g, t + [e]) == Cost(g, t) + Weight(g, e)
  {
    assert (t + [e])[..|t + [e]| - 1] == t;
  }
}
