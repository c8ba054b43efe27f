/** `cfg::overestimate_cycles`: every instruction of every edge is annotated with distances that hold
on all paths that reach it, and the cost of a path computed from the annotations is never below
the cost of its exact simulation. */
module Overestimate {
  import opened Dag
  import opened Cycles

  type Block = seq<Instr>

  datatype Program = Program(g: Graph, blocks: seq<Block>) {
    ghost predicate Valid() {
      && g.Valid() && |blocks| == g.size
      && (forall v :: 0 <= v < |blocks| ==> blocks[v] != [])
    }

    /** The block that `e` leads to. */
    function Target(e: Edge): Block
      requires Valid() && e in g.succ
    {
      blocks[g.succ[e]]
    }
  }

  /** The annotations of a block whose first instruction is annotated with `i`. */
  ghost function Chain(i: Info, b: Block): (r: seq<Info>)
    ensures |r| == |b| && (b != [] ==> r[0] == i)
    decreases |b|
  {
    if b == [] then [] else [i] + Chain(Advance(i, b[0], false), b[1..])
  }

  /** How a block is left whose annotations are `a`. */
  function Leave(a: seq<Info>, b: Block): Info
    requires |a| == |b| > 0
  {
    Advance(a[|a| - 1], b[|b| - 1], false)
  }

  lemma {:induction false} ChainStep(i: Info, b: Block, k: nat)
    requires k + 1 < |b|
    ensures Chain(i, b)[k + 1] == Advance(Chain(i, b)[k], b[k], false)
    decreases |b|
  {
    if k > 0 {
      ChainStep(Advance(i, b[0], false), b[1..], k - 1);
    }
  }

  lemma {:induction false} ChainNext(i: Info, b: Block, r: seq<Info>)
    requires 0 < |r| < |b| && r == Chain(i, b)[..|r|]
    ensures r + [Advance(r[|r| - 1], b[|r| - 1], false)] == Chain(i, b)[..|r| + 1]
  {
    ChainStep(i, b, |r| - 1);
    assert r[|r| - 1] == Chain(i, b)[|r| - 1];
  }

  /** The inner loop: each instruction is annotated from the one before it. */
  method Annotate(i: Info, b: Block) returns (r: seq<Info>)
    requires b != []
    ensures r == Chain(i, b)
  {
    r := [i];
    for k := 1 to |b|
      invariant |r| == k && r == Chain(i, b)[..k]
    {
      ChainNext(i, b, r);
      r := r + [Advance(r[k - 1], b[k - 1], false)];
    }
  }

  // ---------------------------------------------------------------------------
  // Annotations

  ghost predicate Sized(p: Program, infos: map<Edge, seq<Info>>)
    requires p.Valid()
  {
    infos.Keys == p.g.succ.Keys && forall e :: e in infos ==> |infos[e]| == |p.Target(e)|
  }

  /** What arrives at the node `v`: `first` from the start node, `out[e]` over the edge `e`. */
  ghost predicate Arrives(g: Graph, first: Info, out: map<Edge, Info>, v: nat, i: Info) {
    || (v == 0 && i == first)
    || (exists e :: e in out && e in g.succ && g.succ[e] == v && i == out[e])
  }

  /** `i` is below everything that arrives at `v`, and each part of it as large as that allows. */
  ghost predicate Meet(g: Graph, first: Info, out: map<Edge, Info>, v: nat, i: Info) {
    && (forall j :: Arrives(g, first, out, v, j) ==> Leq(i, j))
    && (i.sincecc == UINT_MAX || exists j :: Arrives(g, first, out, v, j) && j.sincecc == i.sincecc)
    && (i.sincemem == UINT_MAX || exists j :: Arrives(g, first, out, v, j) && j.sincemem == i.sincemem)
  }

  /** `a` annotates a block throughout, and the block is left with `o`. */
  ghost predicate Complete(a: seq<Info>, b: Block, o: Info) {
    b != [] && |a| == |b| && a == Chain(a[0], b) && o == Leave(a, b)
  }

  /** The edges in `out` are annotated throughout; the first annotation of every edge accounts for all
  edges in `out` that lead to its source. */
  ghost predicate Partial(p: Program, start: seq<Info>, infos: map<Edge, seq<Info>>, first: Info, out: map<Edge,
                          Info>) {
    && p.Valid() && Sized(p, infos) && out.Keys <= infos.Keys
    && |start| == |p.blocks[0]| && start[0] == Info(0, 0) && Complete(start, p.blocks[0], first)
    && (forall e {:trigger DoneAt(p, infos, out, e)} :: DoneAt(p, infos, out, e))
    && (forall f {:trigger MeetAt(p.g, first, out, infos, f)} :: MeetAt(p.g, first, out, infos, f))
  }

  ghost predicate DoneAt(p: Program, infos: map<Edge, seq<Info>>, out: map<Edge, Info>, e: Edge)
    requires p.Valid()
  {
    e in out && e in infos && e in p.g.succ ==> Complete(infos[e], p.Target(e), out[e])
  }

  ghost predicate MeetAt(g: Graph, first: Info, out: map<Edge, Info>, infos: map<Edge, seq<Info>>, f: Edge) {
    f in infos && infos[f] != [] ==> Meet(g, first, out, f.src, infos[f][0])
  }

  /** The first annotation of each edge is the meet of all that arrives at its source. */
  ghost predicate Annotated(p: Program, start: seq<Info>, infos: map<Edge, seq<Info>>) {
    exists first, out :: Partial(p, start, infos, first, out) && out.Keys == p.g.succ.Keys
  }

  /** The first annotation of all edges leaving `v` is merged with `d`. */
  function Merged(infos: map<Edge, seq<Info>>, v: nat, d: Info): map<Edge, seq<Info>> {
    map f | f in infos :: if f.src == v && infos[f] != [] then infos[f][0 := Merge(infos[f][0], d)] else infos[f]
  }

  lemma {:induction false} MeetMore(g: Graph, first: Info, out: map<Edge, Info>, e: Edge, d: Info, v: nat, i: Info)
    requires Meet(g, first, out, v, i) && e !in out && e in g.succ
    ensures Meet(g, first, out[e := d], v, if v == g.succ[e] then Merge(i, d) else i)
  {
    var out' := out[e := d];
    forall j ensures Arrives(g, first, out', v, j) <==> Arrives(g, first, out, v, j) || (v == g.succ[e] && j == d) {
      if v == g.succ[e] && j == d {
        assert out'[e] == j;
      }
      if x :| x in out && x in g.succ && g.succ[x] == v && j == out[x] {
        assert out'[x] == j;
      }
    }
  }

  /** Handling the edge `e`: its block is annotated and what leaves it is passed on. */
  lemma {:induction false} HandledOk(p: Program, start: seq<Info>, infos: map<Edge, seq<Info>>, first: Info,
                                     out: map<Edge, Info>,
                  e: Edge, a: seq<Info>, d: Info)
    requires Partial(p, start, infos, first, out) && e in infos && e !in out
    requires forall x :: x in out ==> x.src <= e.src
    requires a == Chain(infos[e][0], p.Target(e)) && d == Leave(a, p.Target(e))
    ensures Partial(p, start, Merged(infos[e := a], p.g.succ[e], d), first, out[e := d])
  {
    var infos', out' := Merged(infos[e := a], p.g.succ[e], d), out[e := d];
    HandledSized(p, infos, e, a, d);
    forall x ensures DoneAt(p, infos', out', x) {
      assert DoneAt(p, infos, out, x);
      if x in out {
        assert infos'[x] == infos[x];
      }
    }
    forall f ensures MeetAt(p.g, first, out', infos', f) {
      if f in infos {
        assert MeetAt(p.g, first, out, infos, f);
        MeetMore(p.g, first, out, e, d, f.src, infos[f][0]);
      }
    }
  }

  lemma {:induction false} HandledSized(p: Program, infos: map<Edge, seq<Info>>, e: Edge, a: seq<Info>, d: Info)
    requires p.Valid() && Sized(p, infos) && e in infos && |a| == |p.Target(e)| && a[0] == infos[e][0]
    ensures
      var infos' := Merged(infos[e := a], p.g.succ[e], d);
      && Sized(p, infos') && infos'[e] == a
      && (forall x :: x in infos && x.src <= e.src && x != e ==> infos'[x] == infos[x])
      && (forall f :: f in infos ==>
            infos'[f][0] == if f.src == p.g.succ[e] then Merge(infos[f][0], d) else infos[f][0])
  {
    assert e.src < p.g.succ[e];
  }

  lemma {:induction false} Opened(p: Program, start: seq<Info>, infos: map<Edge, seq<Info>>, d: Info)
    requires p.Valid() && Sized(p, infos) && start == Chain(Info(0, 0), p.blocks[0]) && d == Leave(start, p.blocks[0])
    requires forall e :: e in infos ==> infos[e][0] == NO_INFO
    ensures Partial(p, start, Merged(infos, 0, d), d, map[])
  {
    var infos' := Merged(infos, 0, d);
    assert Sized(p, infos');
    forall f ensures MeetAt(p.g, d, map[], infos', f) {
      if f in infos && f.src == 0 {
        assert Arrives(p.g, d, map[], 0, d);
      }
    }
  }

  // ---------------------------------------------------------------------------

  /** The edges leaving the first `v` nodes. */
  ghost function Upto(g: Graph, v: nat): set<Edge> {
    set e | e in g.succ && e.src < v
  }

  ghost function Present(g: Graph, e: Edge): set<Edge> { if e in g.succ then {e} else {} }

  lemma {:induction false} UptoNext(g: Graph, v: nat)
    ensures Upto(g, v + 1) == Upto(g, v) + Present(g, Edge(v, true)) + Present(g, Edge(v, false))
  {
  }

  class Analysis {
    const p: Program
    var start: seq<Info>                // annotations of the start block
    var infos: map<Edge, seq<Info>>     // annotations of the block behind each edge

    /** As `overestimate_cycles` first fills the instruction vectors. */
    constructor (p: Program)
      requires p.Valid()
      ensures this.p == p && Sized(p, infos) && forall e :: e in infos ==> infos[e][0] == NO_INFO
    {
      this.p := p;
      start := seq(|p.blocks[0]|, _ => Info(0, 0));
      infos := map e | e in p.g.succ :: seq(|p.Target(e)|, _ => NO_INFO);
    }

    /** `cfg::overestimate_cycles`. */
    method Run()
      requires p.Valid() && Sized(p, infos) && forall e :: e in infos ==> infos[e][0] == NO_INFO
      modifies this
      ensures Annotated(p, start, infos)
    {
      ghost var first := Open();
      ghost var out := map[];
      for v := 0 to p.g.size
        invariant Partial(p, start, infos, first, out) && out.Keys == Upto(p.g, v)
      {
        out := HandleNode(v, first, out);
      }
      assert out.Keys == p.g.succ.Keys;
    }

    /** The start block is annotated and its successors learn how it is left. */
    method Open() returns (ghost first: Info)
      requires p.Valid() && Sized(p, infos) && forall e :: e in infos ==> infos[e][0] == NO_INFO
      modifies this
      ensures Partial(p, start, infos, first, map[])
    {
      start := Annotate(Info(0, 0), p.blocks[0]);
      first := Leave(start, p.blocks[0]);
      Opened(p, start, infos, first);
      PassOn(0, Leave(start, p.blocks[0]));
    }

    method HandleNode(v: nat, ghost first: Info, ghost out: map<Edge, Info>) returns (ghost out': map<Edge, Info>)
      requires Partial(p, start, infos, first, out) && out.Keys == Upto(p.g, v)
      modifies this`infos
      ensures Partial(p, start, infos, first, out') && out'.Keys == Upto(p.g, v + 1)
    {
      UptoNext(p.g, v);
      out' := HandleIf(Edge(v, true), first, out);
      out' := HandleIf(Edge(v, false), first, out');
    }

    method HandleIf(e: Edge, ghost first: Info, ghost out: map<Edge, Info>) returns (ghost out': map<Edge, Info>)
      requires Partial(p, start, infos, first, out) && e !in out && forall x :: x in out ==> x.src <= e.src
      modifies this`infos
      ensures Partial(p, start, infos, first, out') && out'.Keys == out.Keys + Present(p.g, e)
    {
      out' := out;
      if e in p.g.succ {
        out' := Handle(e, first, out);
      }
    }

    method Handle(e: Edge, ghost first: Info, ghost out: map<Edge, Info>) returns (ghost out': map<Edge, Info>)
      requires Partial(p, start, infos, first, out) && e in infos && e !in out
      requires forall x :: x in out ==> x.src <= e.src
      modifies this`infos
      ensures Partial(p, start, infos, first, out') && out'.Keys == out.Keys + {e}
    {
      var b := p.Target(e);
      var a := Annotate(infos[e][0], b);
      HandledOk(p, start, infos, first, out, e, a, Leave(a, b));
      out' := out[e := Leave(a, b)];
      infos := infos[e := a];
      PassOn(p.g.succ[e], Leave(a, b));
    }

    /** The successors of a node learn how it is left. */
    method PassOn(v: nat, d: Info)
      requires forall f :: f in infos ==> infos[f] != []
      modifies this`infos
      ensures infos == Merged(old(infos), v, d)
    {
      var t, f := Edge(v, true), Edge(v, false);
      if t in infos {
        infos := infos[t := infos[t][0 := Merge(infos[t][0], d)]];
      }
      if f in infos {
        infos := infos[f := infos[f][0 := Merge(infos[f][0], d)]];
      }
    }
  }

  // ---------------------------------------------------------------------------
  // The cost of a path

  /** The first `n` instructions of a block are counted (the constructor of `path::withstate`). */
  ghost function CountBlock(s: Counters, b: Block, a: seq<Info>, n: nat): (r: Counters)
    requires s.Valid() && n <= |b| == |a|
    ensures r.Valid()
  {
    if n == 0 then s else Count(CountBlock(s, b, a, n - 1), b[n - 1], a[n - 1], false)
  }

  /** The annotations of the block in which a path has arrived. */
  ghost function Current(start: seq<Info>, infos: map<Edge, seq<Info>>, t: Trace): seq<Info>
    requires t != [] ==> t[|t| - 1] in infos
  {
    if t == [] then start else infos[t[|t| - 1]]
  }

  ghost predicate Ready(p: Program, start: seq<Info>, infos: map<Edge, seq<Info>>) {
    p.Valid() && Sized(p, infos) && |start| == |p.blocks[0]|
  }

  /** The counters of the path that took the edges of `t` and has done all but the last instruction of
  the block it arrived in (`extendn`). */
  ghost function PathCounters(p: Program, start: seq<Info>, infos: map<Edge, seq<Info>>, firmware: nat, t: Trace,
                              v: nat): (r: Counters)
    requires Ready(p, start, infos) && Walk(p.g, t, v)
    ensures r.Valid()
    decreases |t|
  {
    if t == [] then
      CountBlock(Counters(firmware, firmware, firmware, firmware), p.blocks[0], start, |start| - 1)
    else
      var e, q := t[|t| - 1], t[..|t| - 1];
      var s := PathCounters(p, start, infos, firmware, q, e.src);
      CurrentSized(p, start, infos, q, e.src);
      var b, a := p.blocks[e.src], Current(start, infos, q);
      CountBlock(Count(s, b[|b| - 1], a[|a| - 1], e.taken), p.Target(e), infos[e], |infos[e]| - 1)
  }

  lemma {:induction false} CurrentSized(p: Program, start: seq<Info>, infos: map<Edge, seq<Info>>, t: Trace, v: nat)
    requires Ready(p, start, infos) && Walk(p.g, t, v)
    ensures v < p.g.size && |Current(start, infos, t)| == |p.blocks[v]| > 0
  {
  }

  /** A path whose annotation is safe, and whose cost is overestimated so far. */
  ghost predicate Covered(s: Counters, i: Info)
    requires s.Valid()
  {
    s.maxCycles >= s.cycles && Safe(i, s.Exact())
  }

  lemma {:induction false} BlockCovered(s: Counters, b: Block, a: seq<Info>, n: nat)
    requires s.Valid() && n < |b| && |a| == |b| && a == Chain(a[0], b) && Covered(s, a[0])
    ensures Covered(CountBlock(s, b, a, n), a[n])
  {
    if n > 0 {
      BlockCovered(s, b, a, n - 1);
      ChainStep(a[0], b, n - 1);
      SafeWhenever(b[n - 1], a[n - 1], CountBlock(s, b, a, n - 1).Exact(), false);
    }
  }

  /** The annotation of an edge is below how its predecessor edge, or the start block, is left. */
  lemma {:induction false} FirstBelow(p: Program, start: seq<Info>, infos: map<Edge, seq<Info>>, first: Info,
                                      out: map<Edge, Info>, t: Trace, e: Edge)
    requires Partial(p, start, infos, first, out) && out.Keys == p.g.succ.Keys
    requires Walk(p.g, t, e.src) && e in infos
    ensures var a := Current(start, infos, t);
      && |a| == |p.blocks[e.src]| && a == Chain(a[0], p.blocks[e.src])
      && Leq(infos[e][0], Leave(a, p.blocks[e.src]))
  {
    CurrentSized(p, start, infos, t, e.src);
    assert MeetAt(p.g, first, out, infos, e);
    if t == [] {
      assert Arrives(p.g, first, out, 0, first);
    } else {
      var d := t[|t| - 1];
      assert DoneAt(p, infos, out, d);
      assert Arrives(p.g, first, out, e.src, out[d]);
    }
  }

  lemma {:induction false} PathCovered(p: Program, start: seq<Info>, infos: map<Edge, seq<Info>>, first: Info,
                                       out: map<Edge, Info>,
                                       firmware: nat, t: Trace, v: nat)
    requires Partial(p, start, infos, first, out) && out.Keys == p.g.succ.Keys && Walk(p.g, t, v)
    ensures |Current(start, infos, t)| > 0
    ensures Covered(PathCounters(p, start, infos, firmware, t, v),
                    Current(start, infos, t)[|Current(start, infos, t)| - 1])
    decreases |t|
  {
    if t == [] {
      StartCovered(p, start, infos, first, out, firmware);
    } else {
      var e, q := t[|t| - 1], t[..|t| - 1];
      PathCovered(p, start, infos, first, out, firmware, q, e.src);
      FirstBelow(p, start, infos, first, out, q, e);
      EdgeCovered(p, start, infos, first, out, firmware, q, e);
    }
  }

  lemma {:induction false} StartCovered(p: Program, start: seq<Info>, infos: map<Edge, seq<Info>>, first: Info,
                                        out: map<Edge, Info>,
                                        firmware: nat)
    requires Partial(p, start, infos, first, out) && out.Keys == p.g.succ.Keys
    ensures |Current(start, infos, [])| > 0
    ensures Covered(PathCounters(p, start, infos, firmware, [], 0),
                    Current(start, infos, [])[|Current(start, infos, [])| - 1])
  {
    BlockCovered(Counters(firmware, firmware, firmware, firmware), p.blocks[0], start, |start| - 1);
  }

  lemma {:induction false} EdgeCovered(p: Program, start: seq<Info>, infos: map<Edge, seq<Info>>, first: Info,
                                       out: map<Edge, Info>,
                    firmware: nat, q: Trace, e: Edge)
    requires Partial(p, start, infos, first, out) && out.Keys == p.g.succ.Keys && Walk(p.g, q, e.src) && e in infos
    requires
      var a, b := Current(start, infos, q), p.blocks[e.src];
      && |a| == |b| > 0 && Leq(infos[e][0], Leave(a, b))
      && Covered(PathCounters(p, start, infos, firmware, q, e.src), a[|a| - 1])
    ensures
      var a, b := Current(start, infos, q), p.blocks[e.src];
      var s := Count(PathCounters(p, start, infos, firmware, q, e.src), b[|b| - 1], a[|a| - 1], e.taken);
      Covered(CountBlock(s, p.Target(e), infos[e], |infos[e]| - 1), infos[e][|infos[e]| - 1])
  {
    var a, b := Current(start, infos, q), p.blocks[e.src];
    var s0 := PathCounters(p, start, infos, firmware, q, e.src);
    var s := Count(s0, b[|b| - 1], a[|a| - 1], e.taken);
    SafeWhenever(b[|b| - 1], a[|a| - 1], s0.Exact(), e.taken);
    SafeBelow(infos[e][0], Leave(a, b), s.Exact());
    assert DoneAt(p, infos, out, e);
    BlockCovered(s, p.Target(e), infos[e], |infos[e]| - 1);
  }

  /** On every path through the program, whatever the branches do, the cost computed from the
  annotations is at least the cost of the exact simulation. */
  lemma {:induction false} NeverUnderestimated(p: Program, start: seq<Info>, infos: map<Edge, seq<Info>>,
                                               firmware: nat, t: Trace, v: nat)
    requires Annotated(p, start, infos) && Walk(p.g, t, v)
    ensures
      var s := PathCounters(p, start, infos, firmware, t, v);
      s.maxCycles >= s.cycles
  {
    var first, out :| Partial(p, start, infos, first, out) && out.Keys == p.g.succ.Keys;
    PathCovered(p, start, infos, first, out, firmware, t, v);
  }
}
