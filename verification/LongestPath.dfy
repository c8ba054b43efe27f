/** `cfg::underestimate_packetrate`: the naive bound, a longest-path computation over the sorted nodes. */
module LongestPath {
  import opened Dag

  /** A path to `v` that costs `c` and took its last edge from one of the first `n` nodes. */
  ghost predicate Attained(g: Graph, n: nat, v: nat, c: real) {
    exists t :: WalkWithin(g, n, t, v) && Cost(g, t) == c
  }

  ghost predicate WalkWithin(g: Graph, n: nat, t: Trace, v: nat) {
    Walk(g, t, v) && (t != [] ==> t[|t| - 1].src < n)
  }

  /** The entry of `v` is the largest cost of all such paths, and absent if there is none. */
  ghost predicate Largest(g: Graph, n: nat, best: map<nat, real>, v: nat) {
    && (v in best ==> Attained(g, n, v, best[v]))
    && (forall t :: WalkWithin(g, n, t, v) ==> Bounds(g, best, v, t))
  }

  ghost predicate Bounds(g: Graph, best: map<nat, real>, v: nat, t: Trace) {
    v in best && Cost(g, t) <= best[v]
  }

  ghost predicate Table(g: Graph, n: nat, best: map<nat, real>) {
    forall v: nat {:trigger Largest(g, n, best, v)} :: Largest(g, n, best, v)
  }

  lemma {:induction false} TableStart(g: Graph)
    requires g.Valid()
    ensures Table(g, 0, map[0 := g.base])
  {
    forall v: nat ensures Largest(g, 0, map[0 := g.base], v) {
      if v == 0 {
        assert WalkWithin(g, 0, [], 0);
      }
    }
  }

  /** Every node is on some path from the start, so it has an entry once its predecessors are done. */
  lemma {:induction false} Reachable(g: Graph, v: nat) returns (t: Trace)
    requires g.Valid() && v < g.size
    ensures WalkWithin(g, v, t, v)
    decreases v
  {
    if v == 0 {
      t := [];
    } else {
      var e := g.preds[v][0];
      assert e in g.preds[v];
      t := Reachable(g, e.src);
      WalkExtend(g, t, e);
      t := t + [e];
    }
  }

  /** `e` is better than nothing and replaces what is worse. */
  function Relax(g: Graph, best: map<nat, real>, e: Edge): map<nat, real>
    requires e in g.succ && e.src in best
  {
    var s, c := g.succ[e], best[e.src] + Weight(g, e);
    if s in best && c <= best[s] then best else best[s := c]
  }

  function RelaxIf(g: Graph, best: map<nat, real>, e: Edge): map<nat, real> {
    if e in g.succ && e.src in best then Relax(g, best, e) else best
  }

  function RelaxNode(g: Graph, best: map<nat, real>, n: nat): map<nat, real> {
    RelaxIf(g, RelaxIf(g, best, Edge(n, true)), Edge(n, false))
  }

  /** A path that takes its last edge from node `n` is a path to `n` and that edge. */
  lemma {:induction false} LastStep(g: Graph, n: nat, t: Trace, v: nat)
    requires g.Valid() && WalkWithin(g, n + 1, t, v)
    ensures WalkWithin(g, n, t, v)
      || (t != [] && t[|t| - 1].src == n && t[|t| - 1] in g.succ && g.succ[t[|t| - 1]] == v
          && WalkWithin(g, n, t[..|t| - 1], n) && Cost(g, t) == Cost(g, t[..|t| - 1]) + Weight(g, t[|t| - 1]))
  {
    if t != [] && t[|t| - 1].src == n {
      WalkEdges(g, t[..|t| - 1], n);
      if t[..|t| - 1] != [] {
        var q := t[..|t| - 1];
        assert q[|q| - 1] in q;
      }
    }
  }

  lemma {:induction false} RelaxTable(g: Graph, n: nat, best: map<nat, real>)
    requires g.Valid() && n < g.size && Table(g, n, best) && n in best
    ensures Table(g, n + 1, RelaxNode(g, best, n))
  {
    var best' := RelaxNode(g, best, n);
    forall v: nat {:trigger Largest(g, n + 1, best', v)} ensures Largest(g, n + 1, best', v) {
      RelaxNodeLargest(g, n, best, v);
    }
  }

  lemma {:induction false} RelaxNodeLargest(g: Graph, n: nat, best: map<nat, real>, v: nat)
    requires g.Valid() && n < g.size && Table(g, n, best) && n in best
    ensures Largest(g, n + 1, RelaxNode(g, best, n), v)
  {
    var best' := RelaxNode(g, best, n);
    assert Largest(g, n, best, v) && Largest(g, n, best, n);
    forall t | WalkWithin(g, n + 1, t, v) ensures Bounds(g, best', v, t) {
      RelaxBounds(g, n, best, v, t);
    }
    assert v in best' ==> Attained(g, n + 1, v, best'[v]) by {
      if v in best' {
        RelaxAttained(g, n, best, v);
      }
    }
  }

  lemma {:induction false} RelaxBounds(g: Graph, n: nat, best: map<nat, real>, v: nat, t: Trace)
    requires g.Valid() && n in best && WalkWithin(g, n + 1, t, v)
    requires Largest(g, n, best, v) && Largest(g, n, best, n)
    ensures Bounds(g, RelaxNode(g, best, n), v, t)
  {
    LastStep(g, n, t, v);
    if !WalkWithin(g, n, t, v) {
      assert Bounds(g, best, n, t[..|t| - 1]);
    }
  }

  lemma {:induction false} RelaxAttained(g: Graph, n: nat, best: map<nat, real>, v: nat)
    requires g.Valid() && n < g.size && n in best && v in RelaxNode(g, best, n)
    requires Largest(g, n, best, v) && Largest(g, n, best, n)
    ensures Attained(g, n + 1, v, RelaxNode(g, best, n)[v])
  {
    var c := RelaxNode(g, best, n)[v];
    if v in best && c == best[v] {
      var t :| WalkWithin(g, n, t, v) && Cost(g, t) == c;
      assert WalkWithin(g, n + 1, t, v);
    } else {
      var e := if Edge(n, true) in g.succ && g.succ[Edge(n, true)] == v && c == best[n] + Weight(g, Edge(n, true))
        then Edge(n, true) else Edge(n, false);
      assert e in g.succ && g.succ[e] == v && c == best[n] + Weight(g, e);
      var t :| WalkWithin(g, n, t, n) && Cost(g, t) == best[n];
      WalkExtend(g, t, e);
      assert WalkWithin(g, n + 1, t + [e], v);
    }
  }

  /** The entries after the first `n` nodes. */
  function Entries(g: Graph, n: nat): map<nat, real> {
    if n == 0 then map[0 := g.base] else RelaxNode(g, Entries(g, n - 1), n - 1)
  }

  lemma {:induction false} EntriesTable(g: Graph, n: nat)
    requires g.Valid() && n <= g.size
    ensures Table(g, n, Entries(g, n)) && (n < g.size ==> n in Entries(g, n))
  {
    if n == 0 {
      TableStart(g);
    } else {
      EntriesTable(g, n - 1);
      RelaxTable(g, n - 1, Entries(g, n - 1));
    }
    if n < g.size {
      var t := Reachable(g, n);
      assert Largest(g, n, Entries(g, n), n);
      assert Bounds(g, Entries(g, n), n, t);
    }
  }

  /** The entry of the final node is the largest cost of all paths. */
  lemma {:induction false} EntryLargest(g: Graph)
    requires g.Valid()
    ensures g.fin in Entries(g, g.size)
    ensures exists t :: Walk(g, t, g.fin) && Cost(g, t) == Entries(g, g.size)[g.fin]
    ensures forall t :: Walk(g, t, g.fin) ==> Cost(g, t) <= Entries(g, g.size)[g.fin]
  {
    var best := Entries(g, g.size);
    EntriesTable(g, g.size);
    assert Largest(g, g.size, best, g.fin);
    var t := Reachable(g, g.fin);
    assert WalkWithin(g, g.size, t, g.fin) && Bounds(g, best, g.fin, t);
    forall t | Walk(g, t, g.fin) ensures Cost(g, t) <= best[g.fin] {
      WalkEdges(g, t, g.fin);
      if t != [] {
        assert t[|t| - 1] in t;
      }
      assert WalkWithin(g, g.size, t, g.fin) && Bounds(g, best, g.fin, t);
    }
  }

  /** `cfg::underestimate_packetrate` for the DRAM ranking returns exactly the largest cost of all paths. */
  method NaiveBound(g: Graph) returns (m: real)
    requires g.Valid()
    ensures exists t :: Walk(g, t, g.fin) && Cost(g, t) == m
    ensures forall t :: Walk(g, t, g.fin) ==> Cost(g, t) <= m
  {
    var best: map<nat, real> := map[0 := g.base];
    for n := 0 to g.size
      invariant best == Entries(g, n)
    {
      EntriesTable(g, n);
      best := RelaxNode(g, best, n);
    }
    EntryLargest(g);
    m := best[g.fin];
  }
}
