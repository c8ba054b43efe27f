/** The ranking by MAX_CYCLES: what a path gains over an edge can depend on the edge before it, because the last
instruction of a block is annotated per incoming edge and counted only when the block is left. */
module MaxCycles {
  import opened Dag
  import opened Cycles
  import opened Overestimate
  import opened Emission

  /** The first `n` instructions of a block. */
  function BlockCost(b: Block, a: seq<Info>, n: nat): nat
    requires n <= |b| == |a|
  {
    if n == 0 then 0 else BlockCost(b, a, n - 1) + Cycles.Cycles(b[n - 1], a[n - 1], false)
  }

  lemma {:induction false} CountBlockMax(s: Counters, b: Block, a: seq<Info>, n: nat)
    requires s.Valid() && n <= |b| == |a|
    ensures CountBlock(s, b, a, n).maxCycles == s.maxCycles + BlockCost(b, a, n)
  {
    if n > 0 {
      CountBlockMax(s, b, a, n - 1);
    }
  }

  /** The annotation of the last instruction of the block in which a path has arrived. */
  function LastInfo(start: seq<Info>, infos: map<Edge, seq<Info>>, t: Trace): Info {
    var a := if t == [] then start else if t[|t| - 1] in infos then infos[t[|t| - 1]] else [];
    if a == [] then NO_INFO else a[|a| - 1]
  }

  /** What the last instruction of a block costs, annotated with `i`, before `e` is taken. */
  function Leaving(p: Program, i: Info, e: Edge): nat
    requires e.src < |p.blocks| && p.blocks[e.src] != []
  {
    Cycles.Cycles(p.blocks[e.src][|p.blocks[e.src]| - 1], i, e.taken)
  }

  /** And the block behind `e`, but for its last instruction. */
  function Entering(p: Program, infos: map<Edge, seq<Info>>, e: Edge): nat
    requires p.Valid() && Sized(p, infos) && e in infos
  {
    BlockCost(p.Target(e), infos[e], |infos[e]| - 1)
  }

  /** `max_cycles` of a path. */
  function Total(p: Program, start: seq<Info>, infos: map<Edge, seq<Info>>, firmware: nat, t: Trace, v: nat): nat
    requires Ready(p, start, infos) && Walk(p.g, t, v)
    decreases |t|
  {
    if t == [] then firmware + BlockCost(p.blocks[0], start, |start| - 1)
    else
      var e, q := t[|t| - 1], t[..|t| - 1];
      Total(p, start, infos, firmware, q, e.src) + Leaving(p, LastInfo(start, infos, q), e) + Entering(p, infos, e)
  }

  lemma {:induction false} StepMax(p: Program, infos: map<Edge, seq<Info>>, s: Counters, i: Info, e: Edge)
    requires p.Valid() && Sized(p, infos) && e in infos && e.src < p.g.size && s.Valid()
    ensures CountBlock(Count(s, p.blocks[e.src][|p.blocks[e.src]| - 1], i, e.taken), p.Target(e), infos[e],
                       |infos[e]| - 1).maxCycles
         == s.maxCycles + Leaving(p, i, e) + Entering(p, infos, e)
  {
    CountBlockMax(Count(s, p.blocks[e.src][|p.blocks[e.src]| - 1], i, e.taken), p.Target(e), infos[e], |infos[e]| - 1);
  }

  lemma {:induction false} LastIs(p: Program, start: seq<Info>, infos: map<Edge, seq<Info>>, t: Trace, v: nat)
    requires Ready(p, start, infos) && Walk(p.g, t, v)
    ensures var a := Current(start, infos, t); a != [] && LastInfo(start, infos, t) == a[|a| - 1]
  {
    CurrentSized(p, start, infos, t, v);
  }

  lemma {:induction false} TotalIs(p: Program, start: seq<Info>, infos: map<Edge, seq<Info>>, firmware: nat, t: Trace,
                                   v: nat)
    requires Ready(p, start, infos) && Walk(p.g, t, v)
    ensures Total(p, start, infos, firmware, t, v) == PathCounters(p, start, infos, firmware, t, v).maxCycles
    decreases |t|
  {
    if t == [] {
      CountBlockMax(Counters(firmware, firmware, firmware, firmware), p.blocks[0], start, |start| - 1);
    } else {
      var e, q := t[|t| - 1], t[..|t| - 1];
      TotalIs(p, start, infos, firmware, q, e.src);
      MaxStep(p, start, infos, firmware, t, v);
    }
  }

  lemma {:induction false} MaxStep(p: Program, start: seq<Info>, infos: map<Edge, seq<Info>>, firmware: nat,
                                   t: Trace, v: nat)
    requires Ready(p, start, infos) && Walk(p.g, t, v) && t != []
    ensures var e, q := t[|t| - 1], t[..|t| - 1];
      PathCounters(p, start, infos, firmware, t, v).maxCycles
        == PathCounters(p, start, infos, firmware, q, e.src).maxCycles
           + Leaving(p, LastInfo(start, infos, q), e) + Entering(p, infos, e)
  {
    var e, q := t[|t| - 1], t[..|t| - 1];
    CurrentSized(p, start, infos, q, e.src);
    StepMax(p, infos, PathCounters(p, start, infos, firmware, q, e.src), LastInfo(start, infos, q), e);
    CountersStep(p, start, infos, firmware, t, v);
  }

  lemma {:induction false} CountersStep(p: Program, start: seq<Info>, infos: map<Edge, seq<Info>>, firmware: nat,
                                        t: Trace, v: nat)
    requires Ready(p, start, infos) && Walk(p.g, t, v) && t != []
    ensures var e, q := t[|t| - 1], t[..|t| - 1];
      PathCounters(p, start, infos, firmware, t, v)
        == CountBlock(Count(PathCounters(p, start, infos, firmware, q, e.src), p.blocks[e.src][|p.blocks[e.src]| - 1],
                            LastInfo(start, infos, q), e.taken), p.Target(e), infos[e], |infos[e]| - 1)
  {
    var e, q := t[|t| - 1], t[..|t| - 1];
    CurrentSized(p, start, infos, q, e.src);
    LastIs(p, start, infos, q, e.src);
  }

  lemma {:induction false} TotalMore(p: Program, start: seq<Info>, infos: map<Edge, seq<Info>>, firmware: nat,
                                     t: Trace, e: Edge)
    requires Ready(p, start, infos) && Walk(p.g, t, e.src) && e in p.g.succ
    ensures Walk(p.g, t + [e], p.g.succ[e]) && e.src < p.g.size
    ensures Total(p, start, infos, firmware, t + [e], p.g.succ[e])
         == Total(p, start, infos, firmware, t, e.src)
            + Leaving(p, LastInfo(start, infos, t), e) + Entering(p, infos, e)
  {
    WalkExtend(p.g, t, e);
    assert (t + [e])[..|t|] == t;
  }

  // When the ranking is one by edges.

  /** The last instruction of a block costs the same over all edges that lead there, for each way it is left. */
  ghost predicate Even(p: Program, infos: map<Edge, seq<Info>>)
    requires p.Valid() && Sized(p, infos)
  {
    forall e, c, d {:trigger Meeting(p, c, d, e)} :: Meeting(p, c, d, e) ==>
      Leaving(p, LastInfo([], infos, [c]), e) == Leaving(p, LastInfo([], infos, [d]), e)
  }

  /** `c` and `d` lead to where `e` begins. */
  ghost predicate Meeting(p: Program, c: Edge, d: Edge, e: Edge)
    requires p.Valid()
  {
    e in p.g.succ && c in p.g.succ && d in p.g.succ && p.g.succ[c] == p.g.succ[d] == e.src
  }

  /** What leaving over `e` costs, seen from the first edge that leads to its source. */
  ghost function EdgeCost(p: Program, start: seq<Info>, infos: map<Edge, seq<Info>>, e: Edge): nat
    requires Ready(p, start, infos) && e in p.g.succ
  {
    Leaving(p, LastInfo(start, infos, if e.src == 0 then [] else [p.g.preds[e.src][0]]), e) + Entering(p, infos, e)
  }

  /** The graph of the program, weighted with the annotated costs. */
  ghost function CostGraph(p: Program, start: seq<Info>, infos: map<Edge, seq<Info>>, firmware: nat): Graph
    requires Ready(p, start, infos)
  {
    p.g.(base := (firmware + BlockCost(p.blocks[0], start, |start| - 1)) as real,
         weight := map e | e in p.g.succ :: EdgeCost(p, start, infos, e) as real)
  }

  lemma {:induction false} CostGraphWalk(p: Program, start: seq<Info>, infos: map<Edge, seq<Info>>, firmware: nat,
                                         t: Trace, v: nat)
    requires Ready(p, start, infos)
    ensures CostGraph(p, start, infos, firmware).Valid()
    ensures Walk(CostGraph(p, start, infos, firmware), t, v) <==> Walk(p.g, t, v)
    decreases |t|
  {
    if t != [] {
      CostGraphWalk(p, start, infos, firmware, t[..|t| - 1], t[|t| - 1].src);
    }
  }

  lemma {:induction false} EvenLeaving(p: Program, start: seq<Info>, infos: map<Edge, seq<Info>>, t: Trace, e: Edge)
    requires Ready(p, start, infos) && Even(p, infos) && Walk(p.g, t, e.src) && e in p.g.succ
    ensures Leaving(p, LastInfo(start, infos, t), e) + Entering(p, infos, e) == EdgeCost(p, start, infos, e)
  {
    if t != [] {
      var c, d := t[|t| - 1], p.g.preds[e.src][0];
      assert d in p.g.preds[e.src];
      assert Meeting(p, c, d, e);
      assert LastInfo(start, infos, t) == LastInfo([], infos, [c]);
      assert LastInfo(start, infos, [d]) == LastInfo([], infos, [d]);
    } else {
      assert e.src == 0;
    }
  }

  /** Then the cost of a path is a sum over its edges, and the search by any such cost applies. */
  lemma {:induction false} TotalIsCost(p: Program, start: seq<Info>, infos: map<Edge, seq<Info>>, firmware: nat,
                                       t: Trace, v: nat)
    requires Ready(p, start, infos) && Even(p, infos) && Walk(p.g, t, v)
    ensures Cost(CostGraph(p, start, infos, firmware), t)
         == PathCounters(p, start, infos, firmware, t, v).maxCycles as real
    decreases |t|
  {
    TotalIs(p, start, infos, firmware, t, v);
    if t != [] {
      var e, q := t[|t| - 1], t[..|t| - 1];
      TotalIsCost(p, start, infos, firmware, q, e.src);
      TotalIs(p, start, infos, firmware, q, e.src);
      EvenLeaving(p, start, infos, q, e);
    }
  }

  /** The rank of a path by its cycles. */
  function MaxRank(p: Program, start: seq<Info>, infos: map<Edge, seq<Info>>, firmware: nat): Trace -> real
    requires Ready(p, start, infos)
  {
    t => if Walk(p.g, t, End(p.g, t)) then Total(p, start, infos, firmware, t, End(p.g, t)) as real else 0.0
  }

  /** Where a path has arrived. */
  function End(g: Graph, t: Trace): nat {
    if t == [] then 0 else if t[|t| - 1] in g.succ then g.succ[t[|t| - 1]] else 0
  }

  lemma {:induction false} RankIs(p: Program, start: seq<Info>, infos: map<Edge, seq<Info>>, firmware: nat, t: Trace,
                                  v: nat)
    requires Ready(p, start, infos) && Walk(p.g, t, v)
    ensures MaxRank(p, start, infos, firmware)(t) == PathCounters(p, start, infos, firmware, t, v).maxCycles as real
         == Total(p, start, infos, firmware, t, v) as real
  {
    TotalIs(p, start, infos, firmware, t, v);
  }

  /** Then paths come out in falling order of their cycles. */
  lemma {:induction false} EvenFalls(p: Program, start: seq<Info>, infos: map<Edge, seq<Info>>, firmware: nat,
                                     outs: seq<seq<Trace>>)
    requires Ready(p, start, infos) && Even(p, infos) && Emitted(p.g, MaxRank(p, start, infos, firmware), outs)
    ensures AllFalling(p.g, MaxRank(p, start, infos, firmware), outs)
  {
    var rank := MaxRank(p, start, infos, firmware);
    forall e, t, u | Comparable(p.g, e, t, u) && rank(t) >= rank(u) ensures rank(t + [e]) >= rank(u + [e]) {
      EvenRank(p, start, infos, firmware, t, e);
      EvenRank(p, start, infos, firmware, u, e);
    }
    FallsWhen(p.g, rank, outs);
  }

  lemma {:induction false} EvenRank(p: Program, start: seq<Info>, infos: map<Edge, seq<Info>>, firmware: nat,
                                    t: Trace, e: Edge)
    requires Ready(p, start, infos) && Even(p, infos) && e in p.g.succ && Walk(p.g, t, e.src)
    ensures MaxRank(p, start, infos, firmware)(t + [e])
         == MaxRank(p, start, infos, firmware)(t) + EdgeCost(p, start, infos, e) as real
  {
    EvenLeaving(p, start, infos, t, e);
    TotalMore(p, start, infos, firmware, t, e);
    RankIs(p, start, infos, firmware, t, e.src);
    RankIs(p, start, infos, firmware, t + [e], p.g.succ[e]);
  }

  // `underestimate_packetrate<MAX_CYCLES>`.

  /** The edges in `done` were extended over: the path kept for `v` came over one of them, costs as much as
  any that did, and more than those that did before it. */
  ghost predicate Kept(p: Program, start: seq<Info>, infos: map<Edge, seq<Info>>, firmware: nat,
                       best: map<nat, Trace>, done: set<Edge>, v: nat) {
    && Ready(p, start, infos)
    && (v == 0 ==> v in best && best[v] == [])
    && (v in best ==> Walk(p.g, best[v], v))
    && (v in best && best[v] != [] ==>
          var d := best[v][|best[v]| - 1]; d in done && d.src in best && best[v] == best[d.src] + [d])
    && (forall d {:trigger Offers(p, start, infos, firmware, best, d, v)} ::
          d in done && d in p.g.succ && p.g.succ[d] == v ==> Offers(p, start, infos, firmware, best, d, v))
  }

  ghost predicate Offers(p: Program, start: seq<Info>, infos: map<Edge, seq<Info>>, firmware: nat,
                         best: map<nat, Trace>, d: Edge, v: nat)
    requires Ready(p, start, infos)
  {
    && v in best && d.src in best && Walk(p.g, best[v], v) && Walk(p.g, best[d.src] + [d], v)
    && Total(p, start, infos, firmware, best[d.src] + [d], v) <= Total(p, start, infos, firmware, best[v], v)
    && (best[v] != [] && Earlier(d, best[v][|best[v]| - 1]) ==>
          Total(p, start, infos, firmware, best[d.src] + [d], v) < Total(p, start, infos, firmware, best[v], v))
  }

  /** The loop handles `d` before `e`: node by node, and the taken branch of a node first. */
  predicate Earlier(d: Edge, e: Edge) {
    d.src < e.src || (d.src == e.src && d.taken && !e.taken)
  }

  ghost predicate AllKept(p: Program, start: seq<Info>, infos: map<Edge, seq<Info>>, firmware: nat,
                          best: map<nat, Trace>, done: set<Edge>) {
    forall v: nat {:trigger Kept(p, start, infos, firmware, best, done, v)} ::
      Kept(p, start, infos, firmware, best, done, v)
  }

  /** The path over `e` replaces a cheaper one. */
  function Extended(p: Program, start: seq<Info>, infos: map<Edge, seq<Info>>, firmware: nat, best: map<nat, Trace>,
                    e: Edge): map<nat, Trace>
    requires Ready(p, start, infos) && e in p.g.succ && e.src in best && Walk(p.g, best[e.src] + [e], p.g.succ[e])
    requires p.g.succ[e] in best ==> Walk(p.g, best[p.g.succ[e]], p.g.succ[e])
  {
    var s, t := p.g.succ[e], best[e.src] + [e];
    if s in best && Total(p, start, infos, firmware, t, s) <= Total(p, start, infos, firmware, best[s], s) then best
    else best[s := t]
  }

  ghost predicate Before(done: set<Edge>, e: Edge) {
    e !in done && forall d :: d in done ==> Earlier(d, e)
  }

  lemma {:induction false} ExtendedKept(p: Program, start: seq<Info>, infos: map<Edge, seq<Info>>, firmware: nat,
                                        best: map<nat, Trace>, done: set<Edge>, e: Edge)
    requires Ready(p, start, infos) && e in p.g.succ && e.src in best && Before(done, e)
    requires AllKept(p, start, infos, firmware, best, done)
    ensures Walk(p.g, best[e.src] + [e], p.g.succ[e])
    ensures p.g.succ[e] in best ==> Walk(p.g, best[p.g.succ[e]], p.g.succ[e])
    ensures AllKept(p, start, infos, firmware, Extended(p, start, infos, firmware, best, e), done + {e})
  {
    var s := p.g.succ[e];
    assert Kept(p, start, infos, firmware, best, done, e.src) && Kept(p, start, infos, firmware, best, done, s);
    WalkExtend(p.g, best[e.src], e);
    var best' := Extended(p, start, infos, firmware, best, e);
    forall v: nat ensures Kept(p, start, infos, firmware, best', done + {e}, v) {
      assert Kept(p, start, infos, firmware, best, done, v);
      ExtendedAt(p, start, infos, firmware, best, done, e, v);
    }
  }

  lemma {:induction false} ExtendedAt(p: Program, start: seq<Info>, infos: map<Edge, seq<Info>>, firmware: nat,
                                      best: map<nat, Trace>, done: set<Edge>, e: Edge, v: nat)
    requires Ready(p, start, infos) && e in p.g.succ && e.src in best && Before(done, e)
    requires Kept(p, start, infos, firmware, best, done, v) && Kept(p, start, infos, firmware, best, done, p.g.succ[e])
    requires Walk(p.g, best[e.src] + [e], p.g.succ[e])
    ensures Kept(p, start, infos, firmware, Extended(p, start, infos, firmware, best, e), done + {e}, v)
  {
    var s, best' := p.g.succ[e], Extended(p, start, infos, firmware, best, e);
    if v != s {
      KeptElsewhere(p, start, infos, firmware, best, best', best[e.src] + [e], done, e, v);
    } else if best' == best {
      KeptStays(p, start, infos, firmware, best, done, e);
    } else {
      KeptReplaced(p, start, infos, firmware, best, done, e);
    }
  }

  lemma {:induction false} KeptElsewhere(p: Program, start: seq<Info>, infos: map<Edge, seq<Info>>, firmware: nat,
                                         best: map<nat, Trace>, best': map<nat, Trace>, t: Trace,
                                         done: set<Edge>, e: Edge, v: nat)
    requires Ready(p, start, infos) && e in p.g.succ && Before(done, e) && v != p.g.succ[e]
    requires best' == best || best' == best[p.g.succ[e] := t]
    requires Kept(p, start, infos, firmware, best, done, v)
    ensures Kept(p, start, infos, firmware, best', done + {e}, v)
  {
    forall d | d in done + {e} && d in p.g.succ && p.g.succ[d] == v
      ensures Offers(p, start, infos, firmware, best', d, v)
    {
      assert Offers(p, start, infos, firmware, best, d, v);
    }
  }

  lemma {:induction false} KeptStays(p: Program, start: seq<Info>, infos: map<Edge, seq<Info>>, firmware: nat,
                                     best: map<nat, Trace>, done: set<Edge>, e: Edge)
    requires Ready(p, start, infos) && e in p.g.succ && e.src in best
    requires Kept(p, start, infos, firmware, best, done, p.g.succ[e])
    requires Offers(p, start, infos, firmware, best, e, p.g.succ[e])
    ensures Kept(p, start, infos, firmware, best, done + {e}, p.g.succ[e])
  {
  }

  lemma {:induction false} KeptReplaced(p: Program, start: seq<Info>, infos: map<Edge, seq<Info>>, firmware: nat,
                                        best: map<nat, Trace>, done: set<Edge>, e: Edge)
    requires Ready(p, start, infos) && e in p.g.succ && e.src in best && Before(done, e)
    requires Kept(p, start, infos, firmware, best, done, p.g.succ[e])
    requires var t, s := best[e.src] + [e], p.g.succ[e];
      && Walk(p.g, t, s)
      && (s in best ==> Total(p, start, infos, firmware, best[s], s) < Total(p, start, infos, firmware, t, s))
    ensures Kept(p, start, infos, firmware, best[p.g.succ[e] := best[e.src] + [e]], done + {e}, p.g.succ[e])
  {
    var t, s := best[e.src] + [e], p.g.succ[e];
    var best' := best[s := t];
    assert e.src < s && t[|t| - 1] == e;
    forall d | d in done + {e} && d in p.g.succ && p.g.succ[d] == s
      ensures Offers(p, start, infos, firmware, best', d, s)
    {
      if d != e {
        assert Offers(p, start, infos, firmware, best, d, s);
      }
    }
  }

  /** `cfg::underestimate_packetrate` for the ranking by cycles: for each node the dearest of the paths that go
  on from those kept for the nodes before it. */
  method UnderestimateCycles(p: Program, start: seq<Info>, infos: map<Edge, seq<Info>>, firmware: nat)
    returns (best: map<nat, Trace>)
    requires Ready(p, start, infos)
    ensures AllKept(p, start, infos, firmware, best, p.g.succ.Keys)
    ensures Even(p, infos) ==>
              forall t :: Walk(p.g, t, p.g.fin) ==> Dearest(p, start, infos, firmware, best, t)
  {
    best := map[0 := []];
    ghost var done := {};
    StartKept(p, start, infos, firmware);
    for n := 0 to p.g.size
      invariant AllKept(p, start, infos, firmware, best, done) && done == Upto(p.g, n)
    {
      UptoNext(p.g, n);
      Arrived(p, start, infos, firmware, best, done, n);
      if Edge(n, true) in p.g.succ {
        ExtendedKept(p, start, infos, firmware, best, done, Edge(n, true));
        best, done := Extended(p, start, infos, firmware, best, Edge(n, true)), done + {Edge(n, true)};
      }
      if Edge(n, false) in p.g.succ {
        ExtendedKept(p, start, infos, firmware, best, done, Edge(n, false));
        best, done := Extended(p, start, infos, firmware, best, Edge(n, false)), done + {Edge(n, false)};
      }
    }
    assert done == p.g.succ.Keys;
    if Even(p, infos) {
      forall t | Walk(p.g, t, p.g.fin) ensures Dearest(p, start, infos, firmware, best, t) {
        GreedyOptimal(p, start, infos, firmware, best, t, p.g.fin);
        TotalIs(p, start, infos, firmware, t, p.g.fin);
        TotalIs(p, start, infos, firmware, best[p.g.fin], p.g.fin);
      }
    }
  }

  /** `t` is not dearer than the result. */
  ghost predicate Dearest(p: Program, start: seq<Info>, infos: map<Edge, seq<Info>>, firmware: nat,
                          best: map<nat, Trace>, t: Trace)
    requires Ready(p, start, infos) && Walk(p.g, t, p.g.fin)
  {
    && p.g.fin in best && Walk(p.g, best[p.g.fin], p.g.fin)
    && PathCounters(p, start, infos, firmware, t, p.g.fin).maxCycles
         <= PathCounters(p, start, infos, firmware, best[p.g.fin], p.g.fin).maxCycles
  }

  lemma {:induction false} StartKept(p: Program, start: seq<Info>, infos: map<Edge, seq<Info>>, firmware: nat)
    requires Ready(p, start, infos)
    ensures AllKept(p, start, infos, firmware, map[0 := []], {})
  {
    forall v: nat ensures Kept(p, start, infos, firmware, map[0 := []], {}, v) {
    }
  }

  lemma {:induction false} Arrived(p: Program, start: seq<Info>, infos: map<Edge, seq<Info>>, firmware: nat,
                                   best: map<nat, Trace>, done: set<Edge>, n: nat)
    requires Ready(p, start, infos) && AllKept(p, start, infos, firmware, best, done) && done == Upto(p.g, n)
    requires n < p.g.size
    ensures n in best
  {
    assert Kept(p, start, infos, firmware, best, done, n);
    if n > 0 {
      var d := p.g.preds[n][0];
      assert d in p.g.preds[n];
      assert Offers(p, start, infos, firmware, best, d, n);
    }
  }

  /** With even costs the path kept for a node is a dearest one. */
  lemma {:induction false} GreedyOptimal(p: Program, start: seq<Info>, infos: map<Edge, seq<Info>>, firmware: nat,
                                         best: map<nat, Trace>, t: Trace, v: nat)
    requires Ready(p, start, infos) && Even(p, infos) && AllKept(p, start, infos, firmware, best, p.g.succ.Keys)
    requires Walk(p.g, t, v)
    ensures v in best && Walk(p.g, best[v], v)
    ensures Total(p, start, infos, firmware, t, v) <= Total(p, start, infos, firmware, best[v], v)
    decreases |t|
  {
    assert Kept(p, start, infos, firmware, best, p.g.succ.Keys, v);
    if t != [] {
      var e, q := t[|t| - 1], t[..|t| - 1];
      GreedyOptimal(p, start, infos, firmware, best, q, e.src);
      EvenLeaving(p, start, infos, q, e);
      EvenLeaving(p, start, infos, best[e.src], e);
      TotalMore(p, start, infos, firmware, best[e.src], e);
      assert Offers(p, start, infos, firmware, best, e, v);
    } else {
      assert best[v] == [];
    }
  }
}
