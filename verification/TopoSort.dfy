/** `cfg::topo_sort`: orders the nodes of a control flow graph, or reports that it is not loop-free. */
module TopoSort {
  import opened Dag

  datatype Result = Sorted(order: seq<nat>) | NotLoopFree

  datatype Cfg = Cfg(nodes: set<nat>, start: nat, fin: nat, succ: map<Edge, nat>, preds: map<nat, seq<Edge>>)
  {
    /** The start node has no predecessors; others may have none either, if they cannot be reached. */
    ghost predicate Valid() {
      && start in nodes && fin in nodes
      && preds.Keys == nodes
      && (forall e :: e in succ ==> e.src in nodes && succ[e] in nodes)
      && (forall v, e :: v in nodes ==> (e in preds[v] <==> e in succ && succ[e] == v))
      && (forall v, i, j :: v in nodes && 0 <= i < j < |preds[v]| ==> preds[v][i] != preds[v][j])
      && preds[start] == []
    }
  }

  /** Each node of `order` comes after all its predecessors. */
  ghost predicate Topological(g: Cfg, order: seq<nat>) {
    forall i, e {:trigger order[i], g.succ[e]} ::
      0 <= i < |order| && e in g.succ && g.succ[e] == order[i] ==> e.src in order[..i]
  }

  ghost predicate NoRepeat(s: seq<nat>) {
    forall i, j :: 0 <= i < j < |s| ==> s[i] != s[j]
  }

  /** The start, or a node with predecessors: others are never pushed. */
  ghost predicate Wanted(g: Cfg, v: nat)
    requires v in g.preds
  {
    v == g.start || g.preds[v] != []
  }

  /** A walk backwards from the final node can stay in `c`, and end only in a node without predecessors. */
  ghost predicate Trap(g: Cfg, c: set<nat>) {
    && g.fin in c && g.start !in c && c <= g.nodes
    && (forall v :: v in c ==> HasPredIn(g, v, c) || (v in g.preds && g.preds[v] == []))
  }

  ghost predicate HasPredIn(g: Cfg, v: nat, c: set<nat>) {
    exists e :: e in g.succ && g.succ[e] == v && e.src in c
  }

  /** Edges into `v` whose source has been placed. */
  ghost function Seen(g: Cfg, order: seq<nat>, v: nat): set<Edge>
    requires v in g.preds
  {
    set e | e in g.preds[v] && e.src in order
  }

  lemma {:induction false} DistinctSize(s: seq<Edge>)
    requires forall i, j :: 0 <= i < j < |s| ==> s[i] != s[j]
    ensures |set e | e in s| == |s|
  {
    if s != [] {
      var r := s[1..];
      DistinctSize(r);
      assert (set e | e in s) == {s[0]} + set e | e in r;
      assert s[0] !in r;
    }
  }

  /** All predecessors are placed exactly when as many incoming edges have been seen as there are. */
  lemma {:induction false} SeenAll(g: Cfg, order: seq<nat>, v: nat)
    requires g.Valid() && v in g.nodes
    ensures |Seen(g, order, v)| <= |g.preds[v]|
    ensures |Seen(g, order, v)| == |g.preds[v]| <==> forall e :: e in g.preds[v] ==> e.src in order
  {
    var all := set e | e in g.preds[v];
    DistinctSize(g.preds[v]);
    var seen := Seen(g, order, v);
    assert all == seen + (all - seen);
    if |seen| == |all| {
      assert all - seen == {};
      forall e | e in g.preds[v] ensures e.src in order {
        assert e in all && e in seen;
      }
    }
    if forall e :: e in g.preds[v] ==> e.src in order {
      assert seen == all;
    }
  }

  lemma {:induction false} SeenStep(g: Cfg, order: seq<nat>, nd: nat, v: nat)
    requires g.Valid() && v in g.nodes && nd in g.nodes && nd !in order
    ensures
      var t, f := Edge(nd, true), Edge(nd, false);
      |Seen(g, order + [nd], v)|
        == |Seen(g, order, v)| + (if t in g.preds[v] then 1 else 0) + (if f in g.preds[v] then 1 else 0)
  {
    var t, f := Edge(nd, true), Edge(nd, false);
    var a := if t in g.preds[v] then {t} else {};
    var b := if f in g.preds[v] then {f} else {};
    assert Seen(g, order + [nd], v) == Seen(g, order, v) + a + b;
  }

  function Get(visited: map<nat, nat>, v: nat): nat { if v in visited then visited[v] else 0 }

  ghost predicate AllPlaced(g: Cfg, order: seq<nat>, v: nat)
    requires v in g.preds
  {
    forall e :: e in g.preds[v] ==> e.src in order
  }

  /** What the loop keeps: `order` is in order so far, and the stack holds exactly the further nodes whose
  predecessors are all placed. */
  ghost predicate Sorting(g: Cfg, order: seq<nat>, stack: seq<nat>, visited: map<nat, nat>) {
    && g.Valid()
    && Topological(g, order) && NoRepeat(order + stack)
    && (forall v {:trigger Status(g, order, stack, visited, v)} :: v in g.nodes ==> Status(g, order, stack, visited, v))
    && (forall v :: v in order + stack ==> v in g.nodes)
  }

  ghost predicate Status(g: Cfg, order: seq<nat>, stack: seq<nat>, visited: map<nat, nat>, v: nat)
    requires v in g.preds
  {
    && Get(visited, v) == |Seen(g, order, v)|
    && (AllPlaced(g, order, v) && Wanted(g, v) <==> v in order + stack)
  }

  /** One edge of the node just placed is counted; its target is pushed once all its edges are. */
  method Visit(g: Cfg, e: Edge, stack: seq<nat>, visited: map<nat, nat>) returns (stack': seq<nat>,
               visited': map<nat, nat>)
    requires g.Valid()
    ensures Visited(g, e, stack, visited, stack', visited')
  {
    stack', visited' := stack, visited;
    if e in g.succ {
      var s := g.succ[e];
      visited' := visited[s := Get(visited, s) + 1];
      if visited'[s] == |g.preds[s]| {
        stack' := stack + [s];
      }
    }
  }

  lemma {:induction false} TopNotPlaced(order: seq<nat>, rest: seq<nat>, nd: nat)
    requires NoRepeat(order + (rest + [nd]))
    ensures nd !in order && nd !in rest && NoRepeat(order + [nd] + rest)
  {
    var all, all' := order + (rest + [nd]), order + [nd] + rest;
    forall i | 0 <= i < |order| ensures order[i] != nd {
      assert all[i] == order[i] && all[|all| - 1] == nd;
    }
    forall i | 0 <= i < |rest| ensures rest[i] != nd {
      assert all[|order| + i] == rest[i] && all[|all| - 1] == nd;
    }
    forall i, j | 0 <= i < j < |all'| ensures all'[i] != all'[j] {
      if i < |order| < j {
        assert all'[i] == all[i] && all'[j] == all[j - 1];
      } else if |order| < i {
        assert all'[i] == all[i - 1] && all'[j] == all[j - 1];
      } else if j < |order| {
        assert all'[i] == all[i] && all'[j] == all[j];
      }
    }
  }

  lemma {:induction false} AppendFresh(s: seq<nat>, v: nat)
    requires NoRepeat(s) && v !in s
    ensures NoRepeat(s + [v])
  {
  }

  /** The visits of both edges of `nd` leave every node with the right count and push exactly the nodes
  that have become ready. */
  lemma {:induction false} Counts(g: Cfg, order: seq<nat>, nd: nat, rest: seq<nat>, visited: map<nat, nat>,
               stack1: seq<nat>, visited1: map<nat, nat>, stack2: seq<nat>, visited2: map<nat, nat>, v: nat)
    requires Sorting(g, order, rest + [nd], visited) && v in g.nodes
    requires Visited(g, Edge(nd, true), rest, visited, stack1, visited1)
    requires Visited(g, Edge(nd, false), stack1, visited1, stack2, visited2)
    ensures Status(g, order + [nd], stack2, visited2, v)
  {
    var t, f := Edge(nd, true), Edge(nd, false);
    var order' := order + [nd];
    assert Status(g, order, rest + [nd], visited, v);
    assert nd in order + (rest + [nd]);
    TopNotPlaced(order, rest, nd);
    SeenStep(g, order, nd, v);
    SeenAll(g, order, v);
    SeenAll(g, order', v);
    assert Get(visited2, v) == |Seen(g, order', v)|;
    Pushes(g, order, nd, rest, visited, stack1, visited1, stack2, visited2, v);
  }

  ghost predicate Visited(g: Cfg, e: Edge, stack: seq<nat>, visited: map<nat, nat>, stack': seq<nat>,
                          visited': map<nat, nat>)
    requires g.Valid()
  {
    if e !in g.succ then stack' == stack && visited' == visited
    else
      var s := g.succ[e];
      && visited' == visited[s := Get(visited, s) + 1]
      && stack' == if visited'[s] == |g.preds[s]| then stack + [s] else stack
  }

  lemma {:induction false} Pushes(g: Cfg, order: seq<nat>, nd: nat, rest: seq<nat>, visited: map<nat, nat>,
               stack1: seq<nat>, visited1: map<nat, nat>, stack2: seq<nat>, visited2: map<nat, nat>, v: nat)
    requires g.Valid() && v in g.nodes && nd in g.nodes
    requires Visited(g, Edge(nd, true), rest, visited, stack1, visited1)
    requires Visited(g, Edge(nd, false), stack1, visited1, stack2, visited2)
    requires Status(g, order, rest + [nd], visited, v)
    requires |Seen(g, order + [nd], v)| == |Seen(g, order, v)|
      + (if Edge(nd, true) in g.preds[v] then 1 else 0) + (if Edge(nd, false) in g.preds[v] then 1 else 0)
    requires |Seen(g, order + [nd], v)| <= |g.preds[v]|
    requires |Seen(g, order, v)| == |g.preds[v]| <==> AllPlaced(g, order, v)
    requires |Seen(g, order + [nd], v)| == |g.preds[v]| <==> AllPlaced(g, order + [nd], v)
    ensures AllPlaced(g, order + [nd], v) && Wanted(g, v) <==> v in order + [nd] + stack2
  {
    var t, f := Edge(nd, true), Edge(nd, false);
    assert t in g.preds[v] <==> t in g.succ && g.succ[t] == v;
    assert f in g.preds[v] <==> f in g.succ && g.succ[f] == v;
    assert v in stack2 <==>
      (v in rest
       || (t in g.succ && g.succ[t] == v && visited1[v] == |g.preds[v]|)
       || (f in g.succ && g.succ[f] == v && visited2[v] == |g.preds[v]|));
    assert v in order + (rest + [nd]) <==> v in order || v in rest || v == nd;
    assert v in order + [nd] + stack2 <==> v in order || v == nd || v in stack2;
  }

  /** Only nodes that were neither placed nor waiting are pushed, and none twice. */
  lemma {:induction false} PushesFresh(g: Cfg, order: seq<nat>, nd: nat, rest: seq<nat>, visited: map<nat, nat>,
                    stack1: seq<nat>, visited1: map<nat, nat>, stack2: seq<nat>, visited2: map<nat, nat>)
    requires Sorting(g, order, rest + [nd], visited)
    requires Visited(g, Edge(nd, true), rest, visited, stack1, visited1)
    requires Visited(g, Edge(nd, false), stack1, visited1, stack2, visited2)
    ensures NoRepeat(order + [nd] + stack2)
    ensures forall v :: v in order + [nd] + stack2 ==> v in g.nodes
  {
    var t, f := Edge(nd, true), Edge(nd, false);
    TopNotPlaced(order, rest, nd);
    assert nd in order + (rest + [nd]);
    if t in g.succ {
      NotYet(g, order, nd, rest, visited, g.succ[t]);
      SeenStep(g, order, nd, g.succ[t]);
      SeenAll(g, order + [nd], g.succ[t]);
      if stack1 != rest {
        AppendFresh(order + [nd] + rest, g.succ[t]);
        assert order + [nd] + rest + [g.succ[t]] == order + [nd] + stack1;
      }
    }
    if f in g.succ {
      NotYet(g, order, nd, rest, visited, g.succ[f]);
      SeenStep(g, order, nd, g.succ[f]);
      SeenAll(g, order + [nd], g.succ[f]);
      if stack2 != stack1 {
        assert t in g.succ && g.succ[t] == g.succ[f] ==> stack1 == rest;
        AppendFresh(order + [nd] + stack1, g.succ[f]);
        assert order + [nd] + stack1 + [g.succ[f]] == order + [nd] + stack2;
      }
    }
    forall v | v in order + [nd] + stack2 ensures v in g.nodes {
      assert v in order + (rest + [nd]) || (t in g.succ && v == g.succ[t]) || (f in g.succ && v == g.succ[f]);
    }
  }

  lemma {:induction false} NotYet(g: Cfg, order: seq<nat>, nd: nat, rest: seq<nat>, visited: map<nat, nat>, v: nat)
    requires Sorting(g, order, rest + [nd], visited) && v in g.nodes && nd !in order
    requires Edge(nd, true) in g.preds[v] || Edge(nd, false) in g.preds[v]
    ensures v !in order + [nd] + rest && Get(visited, v) == |Seen(g, order, v)|
  {
    assert Status(g, order, rest + [nd], visited, v);
    assert !AllPlaced(g, order, v);
    assert v in order + [nd] + rest <==> v in order + (rest + [nd]);
  }

  lemma {:induction false} PlaceNext(g: Cfg, order: seq<nat>, nd: nat, rest: seq<nat>, visited: map<nat, nat>)
    requires Sorting(g, order, rest + [nd], visited)
    ensures Topological(g, order + [nd])
  {
    assert nd in order + (rest + [nd]) && nd in g.nodes;
    assert Status(g, order, rest + [nd], visited, nd);
    forall i, e | 0 <= i < |order + [nd]| && e in g.succ && g.succ[e] == (order + [nd])[i]
      ensures e.src in (order + [nd])[..i]
    {
      if i < |order| {
        assert (order + [nd])[..i] == order[..i] && g.succ[e] == order[i];
      } else {
        assert e in g.preds[nd] && (order + [nd])[..i] == order;
      }
    }
  }

  /** One round of the loop of `topo_sort`. */
  lemma {:induction false} SortStep(g: Cfg, order: seq<nat>, nd: nat, rest: seq<nat>, visited: map<nat, nat>,
                 stack1: seq<nat>, visited1: map<nat, nat>, stack2: seq<nat>, visited2: map<nat, nat>)
    requires Sorting(g, order, rest + [nd], visited)
    requires Visited(g, Edge(nd, true), rest, visited, stack1, visited1)
    requires Visited(g, Edge(nd, false), stack1, visited1, stack2, visited2)
    ensures Sorting(g, order + [nd], stack2, visited2)
    ensures nd in g.nodes && nd !in order
  {
    assert nd in order + (rest + [nd]);
    TopNotPlaced(order, rest, nd);
    PlaceNext(g, order, nd, rest, visited);
    PushesFresh(g, order, nd, rest, visited, stack1, visited1, stack2, visited2);
    forall v | v in g.nodes ensures Status(g, order + [nd], stack2, visited2, v) {
      Counts(g, order, nd, rest, visited, stack1, visited1, stack2, visited2, v);
    }
  }

  // ---------------------------------------------------------------------------

  ghost function Unplaced(g: Cfg, order: seq<nat>): set<nat> {
    set v | v in g.nodes && v !in order
  }

  lemma {:induction false} Begin(g: Cfg)
    requires g.Valid()
    ensures Sorting(g, [], [g.start], map[])
  {
    forall v | v in g.nodes ensures Status(g, [], [g.start], map[], v) {
      assert Seen(g, [], v) == {};
      if g.preds[v] != [] {
        assert g.preds[v][0] in g.preds[v];
      }
    }
  }

  /** Nothing in a trap is ever placed. */
  lemma {:induction false} TrapStays(g: Cfg, c: set<nat>, order: seq<nat>, i: nat)
    requires g.Valid() && Trap(g, c) && Topological(g, order) && i < |order|
    requires forall v :: v in order ==> v in g.nodes && Wanted(g, v)
    ensures order[i] !in c
    decreases i
  {
    if order[i] in c {
      assert order[i] in order && Wanted(g, order[i]);
      var e :| e in g.succ && g.succ[e] == order[i] && e.src in c;
      assert e.src in order[..i];
      var j :| 0 <= j < i && order[j] == e.src;
      TrapStays(g, c, order, j);
    }
  }

  /** If the final node is not placed, the unplaced nodes are a trap. */
  lemma {:induction false} UnplacedTrap(g: Cfg, order: seq<nat>, visited: map<nat, nat>)
    requires Sorting(g, order, [], visited) && g.fin !in order
    ensures Trap(g, Unplaced(g, order))
  {
    var c := Unplaced(g, order);
    assert Status(g, order, [], visited, g.start) && order + [] == order;
    forall v | v in c ensures HasPredIn(g, v, c) || (v in g.preds && g.preds[v] == []) {
      assert Status(g, order, [], visited, v);
      if g.preds[v] != [] {
        var e :| e in g.preds[v] && e.src !in order;
      }
    }
  }

  /** `t` leads from `v` to the final node. */
  ghost predicate LeadsOn(g: Cfg, t: Trace, v: nat) {
    if t == [] then v == g.fin
    else t[0] in g.succ && t[0].src == v && LeadsOn(g, t[1..], g.succ[t[0]])
  }

  lemma {:induction false} LeadsPlaced(g: Cfg, order: seq<nat>, t: Trace, v: nat)
    requires Topological(g, order) && g.fin in order && LeadsOn(g, t, v)
    ensures v in order
  {
    if t != [] {
      LeadsPlaced(g, order, t[1..], g.succ[t[0]]);
      var i :| 0 <= i < |order| && order[i] == g.succ[t[0]];
      assert v in order[..i];
    }
  }

  /** `cfg::topo_sort`. The nodes before `n` are in topological order. */
  method Sort(g: Cfg) returns (r: Result, n: nat)
    requires g.Valid()
    ensures r.NotLoopFree? <==> exists c :: Trap(g, c)
    ensures r.Sorted? ==> NoRepeat(r.order) && (forall v :: v in r.order <==> v in g.nodes)
    ensures r.Sorted? ==> n <= |r.order| && Topological(g, r.order[..n])
    ensures r.Sorted? ==> forall v :: v in r.order[..n] ==> Wanted(g, v)
    ensures r.Sorted? ==> forall v, t :: LeadsOn(g, t, v) ==> v in r.order[..n]
  {
    var left, order, stack, visited := g.nodes, [], [g.start], map[];
    Begin(g);
    while stack != []
      invariant Sorting(g, order, stack, visited)
      invariant left == Unplaced(g, order)
      decreases left
    {
      var nd, rest := stack[|stack| - 1], stack[..|stack| - 1];
      assert stack == rest + [nd];
      var stack1, visited1 := Visit(g, Edge(nd, true), rest, visited);
      var stack2, visited2 := Visit(g, Edge(nd, false), stack1, visited1);
      SortStep(g, order, nd, rest, visited, stack1, visited1, stack2, visited2);
      left, order, stack, visited := left - {nd}, order + [nd], stack2, visited2;
    }
    n := |order|;
    if g.fin in left {
      UnplacedTrap(g, order, visited);
      return NotLoopFree, n;
    }
    assert order + [] == order;
    forall v | v in order ensures Wanted(g, v) {
      assert Status(g, order, [], visited, v);
    }
    forall c ensures !Trap(g, c) {
      var i :| 0 <= i < |order| && order[i] == g.fin;
      if Trap(g, c) {
        TrapStays(g, c, order, i);
      }
    }
    forall v, t | LeadsOn(g, t, v) ensures v in order {
      LeadsPlaced(g, order, t, v);
    }
    var all := Complete(g, order, left);
    return Sorted(all), n;
  }

  /** The nodes that were not placed follow in any order. */
  method Complete(g: Cfg, order: seq<nat>, left: set<nat>) returns (all: seq<nat>)
    requires NoRepeat(order) && left == Unplaced(g, order) && forall v :: v in order ==> v in g.nodes
    ensures |order| <= |all| && all[..|order|] == order
    ensures NoRepeat(all) && forall v :: v in all <==> v in g.nodes
  {
    all := order;
    var r := left;
    while r != {}
      invariant |order| <= |all| && all[..|order|] == order && NoRepeat(all)
      invariant r == Unplaced(g, all) && forall v :: v in all ==> v in g.nodes
      decreases r
    {
      var v :| v in r;
      AppendFresh(all, v);
      all, r := all + [v], r - {v};
    }
    forall v | v in g.nodes ensures v in all {
      assert v !in r;
    }
  }
}
