/** Two arms of a branch that meet again, and what the ranking by MAX_CYCLES makes of them when the costs ahead
depend on the arm: the bound is too low, and the paths come out in the wrong order. */
module Rejoin {
  import opened Dag
  import opened Cycles
  import opened Overestimate
  import opened MaxCycles
  import opened Emission

  // Programs of a listing.

  /** Ordinary instructions cost one cycle, operands none. */
  predicate Plain(n: Instr) {
    match n
    case Fin => false
    case Mem(_, _, operands) => operands == 0
    case Other(cost, _) => cost == 1
    case _ => true
  }

  /** The instruction is one that ends a block. */
  predicate Exits(n: Instr) { n.Branch? || n.Jump? }

  /** `v` is a block between two addresses: only its last instruction leaves it, by a jump to any address or by
  going on at the address behind it, and is not merged with what follows. */
  ghost predicate Laid(p: Program, v: nat, next: nat)
    requires p.Valid() && v < p.g.size
  {
    var b := p.blocks[v];
    var last := b[|b| - 1];
    && (forall k :: 0 <= k < |b| ==> Plain(b[k]) && (k < |b| - 1 ==> !Exits(b[k])))
    && (Edge(v, true) in p.g.succ <==> Exits(last))
    && (Edge(v, false) in p.g.succ <==> !last.Jump?)
    && (Edge(v, false) in p.g.succ ==> p.g.succ[Edge(v, false)] == next)
    && (!Exits(last) ==> exists c :: c in p.g.succ && c.src != v && p.g.succ[c] == next)
  }

  /** The blocks of `p` but for the final one, by their addresses. */
  ghost predicate Listed(p: Program, order: seq<nat>) {
    && p.Valid() && p.blocks[p.g.fin] == [Fin]
    && |order| == p.g.size - 1 && order[0] == 0
    && (forall v :: 0 <= v < p.g.size && v != p.g.fin ==> v in order)
    && (forall k :: 0 <= k < |order| ==> order[k] < p.g.size)
    && (forall k :: 0 <= k < |order| ==> Laid(p, order[k], if k + 1 < |order| then order[k + 1] else p.g.fin))
  }

  // The two arms.

  function Ones(n: nat): Block { seq(n, _ => Other(1, false)) }

  const ACCESS := Mem(false, false, 0)

  /** `pad` instructions, a memory access that does not wait, `since` instructions more, and the last one. */
  datatype Arm = Arm(pad: nat, since: nat, last: Instr) {
    function Instrs(): Block { Ones(pad) + [ACCESS] + Ones(since) + [last] }

    /** The distances before its last instruction, and after it. */
    function Ends(): Info { Info(3 + pad + since, since) }

    function Left(): Info { Advance(Ends(), last, false) }

    predicate Short() {
      pad + since < 1000 && (last == ACCESS || last == Branch || (last.Other? && last.cost == 1))
    }
  }

  const TO_Y := Edge(0, false)
  const TO_X := Edge(0, true)
  const ON_Y := Edge(1, true)
  const ASIDE := Edge(1, false)
  const OUT := Edge(2, true)
  const ON_X := Edge(3, false)

  /** By their addresses: the branch, the arm `y` with a branch to where both meet, a jump out of the listing for
  when that is not taken, the arm `x`, and the block where they meet. `topo_sort` places them in this order too: of
  two nodes pushed together it takes the one pushed last, which is behind the branch not taken. */
  const ORDER: seq<nat> := [0, 1, 2, 3, 4]

  function Join(n: Instr, x: Arm, y: Arm): Program {
    Program(JoinGraph(n), [[Other(1, false), Branch], y.Instrs(), [Jump], x.Instrs(), [n], [Fin]])
  }

  function JoinGraph(n: Instr): Graph {
    var succ: map<Edge, nat> :=
      map[TO_Y := 1, TO_X := 3, ON_Y := 4, ASIDE := 2, OUT := 5, ON_X := 4, Edge(4, false) := 5];
    var succ' := if n.Branch? then succ[Edge(4, true) := 5] else succ;
    Graph(6, 5, succ', [[], [TO_Y], [ASIDE], [TO_X], [ON_Y, ON_X], JoinEnds(n)], 0.0, map e | e in succ' :: 0.0)
  }

  function JoinEnds(n: Instr): seq<Edge> {
    [OUT, Edge(4, false)] + if n.Branch? then [Edge(4, true)] else []
  }

  lemma {:induction false} JoinEdge(n: Instr, e: Edge, v: nat)
    requires v < 6
    ensures e in JoinGraph(n).preds[v] <==> e in JoinGraph(n).succ && JoinGraph(n).succ[e] == v
  {
    assert JoinGraph(n).preds[5] == JoinEnds(n);
    assert e in JoinEnds(n) <==> e == OUT || e == Edge(4, false) || (n.Branch? && e == Edge(4, true));
  }

  lemma {:induction false} JoinGraphValid(n: Instr)
    ensures JoinGraph(n).Valid()
  {
    var g := JoinGraph(n);
    forall v, e | 0 <= v < g.size ensures e in g.preds[v] <==> e in g.succ && g.succ[e] == v {
      JoinEdge(n, e, v);
    }
    forall v | 0 < v < g.size ensures g.preds[v] != [] {
    }
  }

  /** `e` is the edge that leads to `v`. */
  ghost predicate Sole(g: Graph, e: Edge, v: nat) {
    e in g.succ && g.succ[e] == v && forall c :: c in g.succ && g.succ[c] == v ==> c == e
  }

  predicate Fit(x: Arm, y: Arm) { x.Short() && y.Short() && y.last == Branch && x.last != Branch }

  /** What matters about that program. */
  ghost predicate Joins(p: Program, n: Instr, x: Arm, y: Arm) {
    && p.Valid() && Fit(x, y) && p.g.size == 6 && p.g.fin == 5
    && p.blocks == [[Other(1, false), Branch], y.Instrs(), [Jump], x.Instrs(), [n], [Fin]]
    && Sole(p.g, TO_Y, 1) && Sole(p.g, TO_X, 3) && Sole(p.g, ASIDE, 2) && Ends(p.g, n)
  }

  ghost predicate Ends(g: Graph, n: Instr) {
    && ON_Y in g.succ && ON_X in g.succ && g.succ[ON_Y] == g.succ[ON_X] == 4
    && (forall e :: e in g.succ && g.succ[e] == 4 ==> e == ON_Y || e == ON_X)
    && (forall e :: e in g.succ ==> (e == OUT || e.src == 4 <==> g.succ[e] == 5))
    && OUT in g.succ && Edge(4, false) in g.succ && (Edge(4, true) in g.succ <==> n.Branch?)
  }

  lemma {:induction false} JoinSucc(n: Instr, e: Edge)
    ensures e in JoinGraph(n).succ <==>
      (e == TO_Y || e == TO_X || e == ON_Y || e == ASIDE || e == OUT || e == ON_X || e == Edge(4, false)
       || (n.Branch? && e == Edge(4, true)))
    ensures e in JoinGraph(n).succ ==>
      JoinGraph(n).succ[e] == if e == TO_Y then 1 else if e == ASIDE then 2 else if e == TO_X then 3
                              else if e == ON_Y || e == ON_X then 4 else 5
  {
  }

  lemma {:induction false} JoinJoins(n: Instr, x: Arm, y: Arm)
    requires Fit(x, y)
    ensures Joins(Join(n, x, y), n, x, y)
  {
    JoinGraphValid(n);
    JoinSoles(n);
    JoinEndsOk(n);
  }

  lemma {:induction false} JoinSoles(n: Instr)
    ensures var g := JoinGraph(n); Sole(g, TO_Y, 1) && Sole(g, TO_X, 3) && Sole(g, ASIDE, 2)
  {
    forall e ensures e in JoinGraph(n).succ && JoinGraph(n).succ[e] == 1 ==> e == TO_Y { JoinSucc(n, e); }
    forall e ensures e in JoinGraph(n).succ && JoinGraph(n).succ[e] == 2 ==> e == ASIDE { JoinSucc(n, e); }
    forall e ensures e in JoinGraph(n).succ && JoinGraph(n).succ[e] == 3 ==> e == TO_X { JoinSucc(n, e); }
  }

  lemma {:induction false} JoinEndsOk(n: Instr)
    ensures Ends(JoinGraph(n), n)
  {
    JoinSucc(n, Edge(4, true));
    JoinSucc(n, Edge(4, false));
    forall e | e in JoinGraph(n).succ ensures (e == OUT || e.src == 4 <==> JoinGraph(n).succ[e] == 5) {
      JoinSucc(n, e);
    }
    forall e | e in JoinGraph(n).succ && JoinGraph(n).succ[e] == 4 ensures e == ON_Y || e == ON_X {
      JoinSucc(n, e);
    }
  }

  /** The instructions of an arm: only the last one may leave it. */
  lemma {:induction false} ArmPlain(d: Arm, k: nat)
    requires d.Short() && k < |d.Instrs()|
    ensures Plain(d.Instrs()[k]) && (k < |d.Instrs()| - 1 ==> !Exits(d.Instrs()[k]))
  {
  }

  lemma {:induction false} ArmLaid(n: Instr, x: Arm, y: Arm)
    requires Fit(x, y)
    ensures var p := Join(n, x, y); p.Valid() && Laid(p, 1, 2) && Laid(p, 3, 4)
  {
    JoinJoins(n, x, y);
    forall k | 0 <= k < |y.Instrs()| ensures Plain(y.Instrs()[k]) && (k < |y.Instrs()| - 1 ==> !Exits(y.Instrs()[k])) {
      ArmPlain(y, k);
    }
    forall k | 0 <= k < |x.Instrs()| ensures Plain(x.Instrs()[k]) && (k < |x.Instrs()| - 1 ==> !Exits(x.Instrs()[k])) {
      ArmPlain(x, k);
    }
    JoinSucc(n, ON_Y);
    JoinSucc(n, ASIDE);
    JoinSucc(n, ON_X);
    JoinSucc(n, Edge(3, true));
  }

  /** It is the program of a listing, if `n` and the last instructions of the arms are such. */
  lemma {:induction false} JoinListed(n: Instr, x: Arm, y: Arm)
    requires Plain(n) && !n.Jump? && Fit(x, y)
    ensures Listed(Join(n, x, y), ORDER)
  {
    ArmLaid(n, x, y);
    OthersLaid(n, x, y);
  }

  lemma {:induction false} OthersLaid(n: Instr, x: Arm, y: Arm)
    requires Plain(n) && !n.Jump? && Fit(x, y)
    ensures var p := Join(n, x, y); p.Valid() && Laid(p, 0, 1) && Laid(p, 2, 3) && Laid(p, 4, 5)
  {
    JoinJoins(n, x, y);
    JoinSucc(n, TO_X);
    JoinSucc(n, TO_Y);
    JoinSucc(n, OUT);
    JoinSucc(n, Edge(2, false));
    JoinSucc(n, Edge(4, false));
    JoinSucc(n, Edge(4, true));
  }

  // Its annotations.

  lemma {:induction false} OnesPass(i: Info, b: Block, from: nat, n: nat)
    requires from + n < |b| && forall k :: from <= k < from + n ==> b[k] == Other(1, false)
    ensures var a := Chain(i, b);
      && a[from + n] == Info(a[from].sincecc + n, a[from].sincemem + n)
      && BlockCost(b, a, from + n) == BlockCost(b, a, from) + n
    decreases n
  {
    if n > 0 {
      OnesPass(i, b, from, n - 1);
      ChainStep(i, b, from + n - 1);
    }
  }

  lemma {:induction false} ArmChain(d: Arm)
    ensures var b := d.Instrs(); var a := Chain(Info(2, 2), b);
      && |a| == d.pad + d.since + 2 && a[|a| - 1] == d.Ends() && Leave(a, b) == d.Left()
      && BlockCost(b, a, |a| - 1) == d.pad + 1 + d.since
  {
    var b := d.Instrs();
    var a := Chain(Info(2, 2), b);
    OnesPass(Info(2, 2), b, 0, d.pad);
    assert b[d.pad] == ACCESS;
    ChainStep(Info(2, 2), b, d.pad);
    assert a[d.pad + 1] == Info(3 + d.pad, 0) && BlockCost(b, a, d.pad + 1) == d.pad + 1;
    OnesPass(Info(2, 2), b, d.pad + 1, d.since);
  }

  lemma {:induction false} StartChain()
    ensures var a, b := Chain(Info(0, 0), [Other(1, false), Branch]), [Other(1, false), Branch];
      |a| == 2 && a[1] == Info(1, 1) && Leave(a, b) == Info(2, 2) && BlockCost(b, a, 1) == 1
  {
    var b: Block := [Other(1, false), Branch];
    ChainStep(Info(0, 0), b, 0);
    assert BlockCost(b, Chain(Info(0, 0), b), 0) == 0;
  }

  /** A way through the arm `d`. */
  ghost predicate Via(x: Arm, y: Arm, e: Edge, f: Edge, d: Arm) {
    (e == TO_X && f == ON_X && d == x) || (e == TO_Y && f == ON_Y && d == y)
  }

  lemma {:induction false} ViaEdges(p: Program, n: Instr, x: Arm, y: Arm, e: Edge, f: Edge, d: Arm)
    requires Joins(p, n, x, y) && Via(x, y, e, f, d)
    ensures e.src == 0 && Sole(p.g, e, f.src) && f.src != 0 && f in p.g.succ && p.g.succ[f] == 4 && d.Short()
    ensures p.Target(e) == d.Instrs() == p.blocks[f.src] && p.Target(f) == [n]
    ensures p.blocks[0] == [Other(1, false), Branch]
  {
  }

  /** Where one edge arrives, what it brings is the annotation. */
  lemma {:induction false} MeetSole(g: Graph, first: Info, out: map<Edge, Info>, v: nat, i: Info, d: Info)
    requires Meet(g, first, out, v, i) && Arrives(g, first, out, v, d)
    requires forall j :: Arrives(g, first, out, v, j) ==> j == d
    requires d.sincecc < UINT_MAX && d.sincemem < UINT_MAX
    ensures i == d
  {
  }

  lemma {:induction false} SoleArrival(g: Graph, first: Info, out: map<Edge, Info>, e: Edge, v: nat, j: Info)
    requires Sole(g, e, v) && v != 0 && e in out && Arrives(g, first, out, v, j)
    ensures j == out[e]
  {
  }

  /** What the annotations say of an edge that begins in block 0. */
  lemma {:induction false} StartInfos(p: Program, start: seq<Info>, infos: map<Edge, seq<Info>>, first: Info,
                                      out: map<Edge, Info>, e: Edge)
    requires Partial(p, start, infos, first, out) && out.Keys == p.g.succ.Keys
    requires p.blocks[0] == [Other(1, false), Branch] && e in p.g.succ && e.src == 0
    ensures start == Chain(Info(0, 0), p.blocks[0])
    ensures infos[e] == Chain(Info(2, 2), p.Target(e)) && out[e] == Leave(infos[e], p.Target(e))
  {
    StartChain();
    assert MeetAt(p.g, first, out, infos, e) && DoneAt(p, infos, out, e);
    assert Arrives(p.g, first, out, 0, first);
    MeetSole(p.g, first, out, 0, infos[e][0], Info(2, 2));
  }

  /** And of the one that follows it. */
  lemma {:induction false} NextInfos(p: Program, start: seq<Info>, infos: map<Edge, seq<Info>>, first: Info,
                                     out: map<Edge, Info>, e: Edge, f: Edge)
    requires Partial(p, start, infos, first, out) && out.Keys == p.g.succ.Keys
    requires Sole(p.g, e, f.src) && f in p.g.succ && f.src != 0 && |p.Target(f)| == 1
    requires out[e].sincecc < UINT_MAX && out[e].sincemem < UINT_MAX
    ensures infos[f] == [out[e]]
  {
    assert MeetAt(p.g, first, out, infos, f);
    assert Arrives(p.g, first, out, f.src, out[e]);
    forall j | Arrives(p.g, first, out, f.src, j) ensures j == out[e] {
      SoleArrival(p.g, first, out, e, f.src, j);
    }
    MeetSole(p.g, first, out, f.src, infos[f][0], out[e]);
  }

  lemma {:induction false} ViaInfos(p: Program, n: Instr, x: Arm, y: Arm, start: seq<Info>,
                                    infos: map<Edge, seq<Info>>, e: Edge, f: Edge, d: Arm)
    requires Joins(p, n, x, y) && Via(x, y, e, f, d) && Annotated(p, start, infos)
    ensures Ready(p, start, infos) && e in infos && f in infos && start == Chain(Info(0, 0), p.blocks[0])
    ensures infos[e] == Chain(Info(2, 2), d.Instrs()) && infos[f] == [d.Left()]
  {
    ViaEdges(p, n, x, y, e, f, d);
    ArmInfos(p, start, infos, e, f, d);
  }

  lemma {:induction false} ArmInfos(p: Program, start: seq<Info>, infos: map<Edge, seq<Info>>, e: Edge, f: Edge, d: Arm)
    requires p.Valid() && Annotated(p, start, infos) && p.blocks[0] == [Other(1, false), Branch] && d.Short()
    requires e in p.g.succ && e.src == 0 && p.Target(e) == d.Instrs()
    requires f in p.g.succ && f.src != 0 && Sole(p.g, e, f.src) && |p.Target(f)| == 1
    ensures Ready(p, start, infos) && e in infos && f in infos && start == Chain(Info(0, 0), p.blocks[0])
    ensures infos[e] == Chain(Info(2, 2), d.Instrs()) && infos[f] == [d.Left()]
  {
    var first, out :| Partial(p, start, infos, first, out) && out.Keys == p.g.succ.Keys;
    StartInfos(p, start, infos, first, out, e);
    ArmChain(d);
    NextInfos(p, start, infos, first, out, e, f);
  }

  // And the costs of its paths.

  lemma {:induction false} FirstTotal(p: Program, start: seq<Info>, infos: map<Edge, seq<Info>>, firmware: nat,
                                      e: Edge, d: Arm)
    requires Ready(p, start, infos) && e in p.g.succ && e.src == 0
    requires p.blocks[0] == [Other(1, false), Branch] && start == Chain(Info(0, 0), p.blocks[0])
    requires p.Target(e) == d.Instrs() && infos[e] == Chain(Info(2, 2), d.Instrs())
    ensures Walk(p.g, [e], p.g.succ[e])
    ensures Total(p, start, infos, firmware, [e], p.g.succ[e])
         == firmware + (if e.taken then 5 else 3) + d.pad + d.since
  {
    StartChain();
    ArmChain(d);
    TotalMore(p, start, infos, firmware, [], e);
    assert [] + [e] == [e];
  }

  /** Where the arms meet. */
  lemma {:induction false} MeetTotal(p: Program, n: Instr, x: Arm, y: Arm, start: seq<Info>,
                                     infos: map<Edge, seq<Info>>, firmware: nat, e: Edge, f: Edge, d: Arm)
    requires Joins(p, n, x, y) && Via(x, y, e, f, d) && Annotated(p, start, infos)
    ensures Ready(p, start, infos) && Walk(p.g, [e, f], 4) && f in infos && infos[f] == [d.Left()]
    ensures Total(p, start, infos, firmware, [e, f], 4) == firmware + 6 + d.pad + d.since
  {
    ViaInfos(p, n, x, y, start, infos, e, f, d);
    ViaEdges(p, n, x, y, e, f, d);
    FirstTotal(p, start, infos, firmware, e, d);
    ArmChain(d);
    ArmLeft(p, start, infos, firmware, e, f, d);
  }

  lemma {:induction false} ArmLeft(p: Program, start: seq<Info>, infos: map<Edge, seq<Info>>, firmware: nat,
                                   e: Edge, f: Edge, d: Arm)
    requires Ready(p, start, infos) && e in p.g.succ && e.src == 0 && f in p.g.succ && p.g.succ[e] == f.src
    requires p.Target(e) == d.Instrs() && infos[e] == Chain(Info(2, 2), d.Instrs()) && |infos[f]| == 1 && d.Short()
    requires f.taken ==> d.last == Branch
    ensures Walk(p.g, [e], f.src) && Walk(p.g, [e, f], p.g.succ[f])
    ensures Total(p, start, infos, firmware, [e, f], p.g.succ[f])
         == Total(p, start, infos, firmware, [e], f.src) + if f.taken then 3 else 1
  {
    ArmChain(d);
    TotalMore(p, start, infos, firmware, [], e);
    assert [] + [e] == [e];
    TotalMore(p, start, infos, firmware, [e], f);
    assert [e] + [f] == [e, f];
    assert BlockCost(p.Target(f), infos[f], 0) == 0;
  }

  /** Going on from there. */
  lemma {:induction false} OnwardTotal(p: Program, n: Instr, x: Arm, y: Arm, start: seq<Info>,
                                       infos: map<Edge, seq<Info>>, firmware: nat, e: Edge, f: Edge, d: Arm, k: Edge)
    requires Joins(p, n, x, y) && Via(x, y, e, f, d) && Annotated(p, start, infos) && k in p.g.succ && k.src == 4
    ensures Ready(p, start, infos) && Walk(p.g, [e, f, k], 5)
    ensures Total(p, start, infos, firmware, [e, f, k], 5)
         == firmware + 6 + d.pad + d.since + Cycles.Cycles(n, d.Left(), k.taken)
  {
    MeetTotal(p, n, x, y, start, infos, firmware, e, f, d);
    TotalMore(p, start, infos, firmware, [e, f], k);
    assert [e, f] + [k] == [e, f, k];
    assert BlockCost(p.Target(k), infos[k], 0) == 0;
  }

  /** And not going there at all. */
  lemma {:induction false} AsideTotal(p: Program, n: Instr, x: Arm, y: Arm, start: seq<Info>,
                                      infos: map<Edge, seq<Info>>, firmware: nat)
    requires Joins(p, n, x, y) && Annotated(p, start, infos)
    ensures Ready(p, start, infos) && Walk(p.g, [TO_Y, ASIDE], 2) && Walk(p.g, [TO_Y, ASIDE, OUT], 5)
    ensures Total(p, start, infos, firmware, [TO_Y, ASIDE, OUT], 5) == firmware + 8 + y.pad + y.since
  {
    ViaInfos(p, n, x, y, start, infos, TO_Y, ON_Y, y);
    FirstTotal(p, start, infos, firmware, TO_Y, y);
    ArmLeft(p, start, infos, firmware, TO_Y, ASIDE, y);
    TotalMore(p, start, infos, firmware, [TO_Y, ASIDE], OUT);
    assert [TO_Y, ASIDE] + [OUT] == [TO_Y, ASIDE, OUT];
    assert BlockCost(p.Target(OUT), infos[OUT], 0) == 0;
  }

  // The path that is kept.

  lemma {:induction false} KeptOver(p: Program, start: seq<Info>, infos: map<Edge, seq<Info>>, firmware: nat,
                                    best: map<nat, Trace>, e: Edge, v: nat)
    requires Ready(p, start, infos) && AllKept(p, start, infos, firmware, best, p.g.succ.Keys) && Sole(p.g, e, v)
    requires v != 0
    ensures e.src in best && v in best && best[v] == best[e.src] + [e]
  {
    assert Kept(p, start, infos, firmware, best, p.g.succ.Keys, v);
    assert Offers(p, start, infos, firmware, best, e, v);
    assert best[v] != [];
    assert best[v][|best[v]| - 1] == e;
  }

  const FIRST: Trace := [TO_Y, ON_Y]
  const SECOND: Trace := [TO_X, ON_X]

  lemma {:induction false} KeptArms(p: Program, n: Instr, x: Arm, y: Arm, start: seq<Info>,
                                    infos: map<Edge, seq<Info>>, firmware: nat, best: map<nat, Trace>)
    requires Joins(p, n, x, y) && Ready(p, start, infos) && AllKept(p, start, infos, firmware, best, p.g.succ.Keys)
    ensures 1 in best && best[1] == [TO_Y] && 2 in best && best[2] == [TO_Y, ASIDE] && 3 in best && best[3] == [TO_X]
  {
    assert Kept(p, start, infos, firmware, best, p.g.succ.Keys, 0);
    KeptOver(p, start, infos, firmware, best, TO_Y, 1);
    KeptOver(p, start, infos, firmware, best, ASIDE, 2);
    KeptOver(p, start, infos, firmware, best, TO_X, 3);
  }

  /** Where the arms meet it is the one over the arm that is handled first, unless that one is cheaper. */
  lemma {:induction false} KeptMeeting(p: Program, n: Instr, x: Arm, y: Arm, start: seq<Info>,
                                       infos: map<Edge, seq<Info>>, firmware: nat, best: map<nat, Trace>)
    requires Joins(p, n, x, y) && Annotated(p, start, infos) && x.pad + x.since <= y.pad + y.since
    requires Ready(p, start, infos) && AllKept(p, start, infos, firmware, best, p.g.succ.Keys)
    ensures 4 in best && best[4] == FIRST
  {
    KeptArms(p, n, x, y, start, infos, firmware, best);
    MeetTotal(p, n, x, y, start, infos, firmware, TO_X, ON_X, x);
    MeetTotal(p, n, x, y, start, infos, firmware, TO_Y, ON_Y, y);
    assert Kept(p, start, infos, firmware, best, p.g.succ.Keys, 4);
    assert [TO_Y] + [ON_Y] == FIRST && [TO_X] + [ON_X] == SECOND;
    assert Offers(p, start, infos, firmware, best, ON_Y, 4);
    assert best[4] != [];
    assert best[4][|best[4]| - 1] == ON_X ==> Earlier(ON_Y, best[4][|best[4]| - 1]);
  }

  /** The bound is the cost of going on with that path. */
  ghost predicate Bounds(p: Program, start: seq<Info>, infos: map<Edge, seq<Info>>, firmware: nat,
                         best: map<nat, Trace>, k: Edge) {
    && Ready(p, start, infos)
    && p.g.fin in best && Walk(p.g, best[p.g.fin], p.g.fin) && Walk(p.g, FIRST + [k], p.g.fin)
    && Total(p, start, infos, firmware, best[p.g.fin], p.g.fin)
         == Total(p, start, infos, firmware, FIRST + [k], p.g.fin)
  }

  lemma {:induction false} BoundIs(p: Program, n: Instr, x: Arm, y: Arm, start: seq<Info>,
                                   infos: map<Edge, seq<Info>>, firmware: nat, best: map<nat, Trace>, k: Edge)
    requires Joins(p, n, x, y) && Annotated(p, start, infos) && x.pad + x.since <= y.pad + y.since
    requires Ready(p, start, infos) && AllKept(p, start, infos, firmware, best, p.g.succ.Keys)
    requires k == Edge(4, n.Branch?) && Cycles.Cycles(n, y.Left(), k.taken) > 2
    ensures Bounds(p, start, infos, firmware, best, k)
  {
    KeptArms(p, n, x, y, start, infos, firmware, best);
    KeptMeeting(p, n, x, y, start, infos, firmware, best);
    assert Kept(p, start, infos, firmware, best, p.g.succ.Keys, 5);
    assert Offers(p, start, infos, firmware, best, k, 5);
    var m := best[5][|best[5]| - 1];
    EndsBelow(p, n, x, y, start, infos, firmware, k, m);
  }

  /** Of the ways to the end, going on over `k` from where the arms meet. */
  lemma {:induction false} EndsBelow(p: Program, n: Instr, x: Arm, y: Arm, start: seq<Info>,
                                     infos: map<Edge, seq<Info>>, firmware: nat, k: Edge, m: Edge)
    requires Joins(p, n, x, y) && Annotated(p, start, infos) && k == Edge(4, n.Branch?) && m in p.g.succ
    requires Cycles.Cycles(n, y.Left(), k.taken) > 2 && p.g.succ[m] == 5
    ensures Ready(p, start, infos) && Walk(p.g, FIRST + [k], 5)
    ensures var t := if m.src == 4 then FIRST + [m] else [TO_Y, ASIDE] + [m];
      Walk(p.g, t, 5)
      && Total(p, start, infos, firmware, t, 5) <= Total(p, start, infos, firmware, FIRST + [k], 5)
  {
    assert FIRST + [k] == [TO_Y, ON_Y, k];
    OnwardTotal(p, n, x, y, start, infos, firmware, TO_Y, ON_Y, y, k);
    if m.src == 4 {
      assert FIRST + [m] == [TO_Y, ON_Y, m];
      OnwardTotal(p, n, x, y, start, infos, firmware, TO_Y, ON_Y, y, m);
    } else {
      assert [TO_Y, ASIDE] + [m] == [TO_Y, ASIDE, OUT];
      AsideTotal(p, n, x, y, start, infos, firmware);
    }
  }

  // Uneven costs.

  function Least(a: nat, b: nat): nat { if a < b then a else b }

  /** The arm `x`, so that `n` costs behind it as described by `i`. */
  function Dear(n: Instr, i: Info, pad: nat): Arm {
    if n.Branch? then Arm(pad, 0, Other(1, true))
    else if i.sincemem == 0 then Arm(pad, 0, ACCESS)
    else Arm(pad, Least(i.sincemem, COST_40BIT_MAX) - 1, Other(1, false))
  }

  /** And the arm `y`. */
  function Cheap(j: Info, pad: nat): Arm {
    Arm(pad, if j.sincemem == 0 then 0 else Least(j.sincemem, COST_40BIT_MAX) - 1, Branch)
  }

  lemma {:induction false} ArmCosts(n: Instr, i: Info, j: Info, taken: bool, px: nat, py: nat)
    requires Cycles.Cycles(n, i, taken) > Cycles.Cycles(n, j, taken) && (taken ==> n.Branch?)
    ensures Cycles.Cycles(n, Dear(n, i, px).Left(), taken) == Cycles.Cycles(n, i, taken) <= COST_40BIT_MAX
    ensures Cycles.Cycles(n, Cheap(j, py).Left(), taken) == Cycles.Cycles(n, j, taken) > 2
    ensures taken == n.Branch? && !n.Jump?
  {
  }

  /** Where they meet the first path costs `d` more than the second, but behind `k` it costs `gap` less. */
  ghost predicate Reversed(p: Program, start: seq<Info>, infos: map<Edge, seq<Info>>, firmware: nat, k: Edge, d: nat,
                           gap: nat) {
    && Ready(p, start, infos) && Walk(p.g, FIRST, 4) && Walk(p.g, SECOND, 4)
    && Total(p, start, infos, firmware, FIRST, 4) == Total(p, start, infos, firmware, SECOND, 4) + d
    && Walk(p.g, FIRST + [k], p.g.fin) && Walk(p.g, SECOND + [k], p.g.fin)
    && Total(p, start, infos, firmware, FIRST + [k], p.g.fin) + gap
         == Total(p, start, infos, firmware, SECOND + [k], p.g.fin)
  }

  /** The paths have the costs `ci` and `cj` ahead. */
  ghost predicate Ahead(p: Program, start: seq<Info>, infos: map<Edge, seq<Info>>, k: Edge, ci: nat, cj: nat) {
    && Ready(p, start, infos) && !Even(p, infos) && k.src < p.g.size
    && Leaving(p, LastInfo(start, infos, SECOND), k) == ci && Leaving(p, LastInfo(start, infos, FIRST), k) == cj
  }

  function ArmX(n: Instr, i: Info, j: Info): Arm { Dear(n, i, Cheap(j, 0).since) }

  function ArmY(n: Instr, i: Info, j: Info, d: nat): Arm { Cheap(j, Dear(n, i, 0).since + d) }

  lemma {:induction false} ArmsJoin(n: Instr, i: Info, j: Info, taken: bool, d: nat)
    requires Cycles.Cycles(n, i, taken) > Cycles.Cycles(n, j, taken) + d && (taken ==> n.Branch?)
    ensures var x, y := ArmX(n, i, j), ArmY(n, i, j, d); var p := Join(n, x, y);
      && Joins(p, n, x, y) && (Plain(n) ==> Listed(p, ORDER)) && y.pad + y.since == x.pad + x.since + d
      && Cycles.Cycles(n, x.Left(), taken) == Cycles.Cycles(n, i, taken)
      && Cycles.Cycles(n, y.Left(), taken) == Cycles.Cycles(n, j, taken) > 2 && taken == n.Branch?
  {
    var x, y := ArmX(n, i, j), ArmY(n, i, j, d);
    ArmCosts(n, i, j, taken, x.pad, y.pad);
    JoinJoins(n, x, y);
    if Plain(n) {
      JoinListed(n, x, y);
    }
  }

  lemma {:induction false} JoinCosts(p: Program, n: Instr, x: Arm, y: Arm, start: seq<Info>,
                                     infos: map<Edge, seq<Info>>, firmware: nat, taken: bool, d: nat)
    requires Joins(p, n, x, y) && Annotated(p, start, infos) && (taken ==> n.Branch?)
    requires y.pad + y.since == x.pad + x.since + d
    requires Cycles.Cycles(n, x.Left(), taken) > Cycles.Cycles(n, y.Left(), taken) + d
    ensures Ahead(p, start, infos, Edge(4, taken), Cycles.Cycles(n, x.Left(), taken), Cycles.Cycles(n, y.Left(), taken))
    ensures Reversed(p, start, infos, firmware, Edge(4, taken), d,
                     Cycles.Cycles(n, x.Left(), taken) - Cycles.Cycles(n, y.Left(), taken) - d)
  {
    var k := Edge(4, taken);
    assert FIRST + [k] == [TO_Y, ON_Y, k] && SECOND + [k] == [TO_X, ON_X, k];
    MeetTotal(p, n, x, y, start, infos, firmware, TO_X, ON_X, x);
    MeetTotal(p, n, x, y, start, infos, firmware, TO_Y, ON_Y, y);
    OnwardTotal(p, n, x, y, start, infos, firmware, TO_X, ON_X, x, k);
    OnwardTotal(p, n, x, y, start, infos, firmware, TO_Y, ON_Y, y, k);
    JoinUneven(p, n, x, y, start, infos, k);
  }

  lemma {:induction false} ViaLast(p: Program, n: Instr, x: Arm, y: Arm, start: seq<Info>,
                                   infos: map<Edge, seq<Info>>, e: Edge, f: Edge, d: Arm)
    requires Joins(p, n, x, y) && Via(x, y, e, f, d) && Annotated(p, start, infos)
    ensures Ready(p, start, infos) && f in p.g.succ && p.g.succ[f] == 4
    ensures LastInfo(start, infos, [e, f]) == LastInfo([], infos, [f]) == d.Left()
  {
    ViaInfos(p, n, x, y, start, infos, e, f, d);
    ViaEdges(p, n, x, y, e, f, d);
  }

  lemma {:induction false} JoinUneven(p: Program, n: Instr, x: Arm, y: Arm, start: seq<Info>,
                                      infos: map<Edge, seq<Info>>, k: Edge)
    requires Joins(p, n, x, y) && Annotated(p, start, infos)
    requires k in p.g.succ && k.src == 4 && Cycles.Cycles(n, x.Left(), k.taken) != Cycles.Cycles(n, y.Left(), k.taken)
    ensures Ahead(p, start, infos, k, Cycles.Cycles(n, x.Left(), k.taken), Cycles.Cycles(n, y.Left(), k.taken))
  {
    ViaLast(p, n, x, y, start, infos, TO_X, ON_X, x);
    ViaLast(p, n, x, y, start, infos, TO_Y, ON_Y, y);
    assert Meeting(p, ON_X, ON_Y, k);
  }

  /** Some path costs `gap` more than the bound. */
  ghost predicate Missed(p: Program, start: seq<Info>, infos: map<Edge, seq<Info>>, firmware: nat,
                         best: map<nat, Trace>, gap: nat) {
    && Ready(p, start, infos) && p.g.fin in best && Walk(p.g, best[p.g.fin], p.g.fin)
    && exists t {:trigger Walk(p.g, t, p.g.fin)} :: Walk(p.g, t, p.g.fin) && Costs(p, start, infos, firmware, t,
         PathCounters(p, start, infos, firmware, best[p.g.fin], p.g.fin).maxCycles + gap)
  }

  ghost predicate Costs(p: Program, start: seq<Info>, infos: map<Edge, seq<Info>>, firmware: nat, t: Trace, c: nat)
    requires Ready(p, start, infos) && Walk(p.g, t, p.g.fin)
  {
    PathCounters(p, start, infos, firmware, t, p.g.fin).maxCycles == c
  }

  lemma {:induction false} BoundMissed(p: Program, n: Instr, x: Arm, y: Arm, start: seq<Info>,
                                       infos: map<Edge, seq<Info>>, firmware: nat, best: map<nat, Trace>, taken: bool,
                                       d: nat)
    requires Joins(p, n, x, y) && Annotated(p, start, infos) && taken == n.Branch?
    requires y.pad + y.since == x.pad + x.since + d && Cycles.Cycles(n, y.Left(), taken) > 2
    requires Cycles.Cycles(n, x.Left(), taken) > Cycles.Cycles(n, y.Left(), taken) + d
    requires AllKept(p, start, infos, firmware, best, p.g.succ.Keys)
    ensures Missed(p, start, infos, firmware, best,
                   Cycles.Cycles(n, x.Left(), taken) - Cycles.Cycles(n, y.Left(), taken) - d)
  {
    JoinCosts(p, n, x, y, start, infos, firmware, taken, d);
    BoundIs(p, n, x, y, start, infos, firmware, best, Edge(4, taken));
    ReversedMissed(p, start, infos, firmware, best, Edge(4, taken), d,
                   Cycles.Cycles(n, x.Left(), taken) - Cycles.Cycles(n, y.Left(), taken) - d);
  }

  lemma {:induction false} ReversedMissed(p: Program, start: seq<Info>, infos: map<Edge, seq<Info>>, firmware: nat,
                                          best: map<nat, Trace>, k: Edge, d: nat, gap: nat)
    requires Reversed(p, start, infos, firmware, k, d, gap) && Bounds(p, start, infos, firmware, best, k)
    ensures Missed(p, start, infos, firmware, best, gap)
  {
    var t := SECOND + [k];
    TotalIs(p, start, infos, firmware, t, p.g.fin);
    TotalIs(p, start, infos, firmware, best[p.g.fin], p.g.fin);
    assert Walk(p.g, t, p.g.fin);
  }

  /** Whenever two descriptions make an instruction cost differently, there is a program of a listing in which two
  paths meet before this instruction with these costs ahead. The one that costs more by the difference is not the
  one kept, and the bound comes out below its cost. If the difference is more than one there is room for the
  kept path to be strictly dearer where they meet, so that the order of the paths is reversed. */
  lemma {:induction false} Reorders(n: Instr, i: Info, j: Info, taken: bool, d: nat, start: seq<Info>,
                                    infos: map<Edge, seq<Info>>, firmware: nat) returns (p: Program)
    requires Cycles.Cycles(n, i, taken) > Cycles.Cycles(n, j, taken) + d && (taken ==> n.Branch?)
    ensures p.Valid() && p.g.size == 6 && p.blocks[4] == [n] && (Plain(n) ==> Listed(p, ORDER))
    ensures Annotated(p, start, infos) ==>
      && Ahead(p, start, infos, Edge(4, taken), Cycles.Cycles(n, i, taken), Cycles.Cycles(n, j, taken))
      && Reversed(p, start, infos, firmware, Edge(4, taken), d,
                  Cycles.Cycles(n, i, taken) - Cycles.Cycles(n, j, taken) - d)
      && forall best :: AllKept(p, start, infos, firmware, best, p.g.succ.Keys) ==>
           Missed(p, start, infos, firmware, best, Cycles.Cycles(n, i, taken) - Cycles.Cycles(n, j, taken) - d)
  {
    var x, y := ArmX(n, i, j), ArmY(n, i, j, d);
    ArmsJoin(n, i, j, taken, d);
    p := Join(n, x, y);
    if Annotated(p, start, infos) {
      JoinCosts(p, n, x, y, start, infos, firmware, taken, d);
      forall best | AllKept(p, start, infos, firmware, best, p.g.succ.Keys)
        ensures Missed(p, start, infos, firmware, best,
                       Cycles.Cycles(n, i, taken) - Cycles.Cycles(n, j, taken) - d)
      {
        BoundMissed(p, n, x, y, start, infos, firmware, best, taken, d);
      }
    }
  }

  /** Such a program with its annotations and its bound. */
  method Underestimated(n: Instr, i: Info, j: Info, taken: bool, d: nat, firmware: nat)
    returns (p: Program, a: Analysis, best: map<nat, Trace>)
    requires Cycles.Cycles(n, i, taken) > Cycles.Cycles(n, j, taken) + d && (taken ==> n.Branch?)
    ensures p.Valid() && (Plain(n) ==> Listed(p, ORDER)) && a.p == p && Annotated(p, a.start, a.infos)
    ensures AllKept(p, a.start, a.infos, firmware, best, p.g.succ.Keys)
    ensures Missed(p, a.start, a.infos, firmware, best, Cycles.Cycles(n, i, taken) - Cycles.Cycles(n, j, taken) - d)
  {
    p := Join(n, ArmX(n, i, j), ArmY(n, i, j, d));
    ArmsJoin(n, i, j, taken, d);
    a := new Analysis(p);
    a.Run();
    best := UnderestimateCycles(p, a.start, a.infos, firmware);
    BoundMissed(p, n, ArmX(n, i, j), ArmY(n, i, j, d), a.start, a.infos, firmware, best, taken, d);
  }

  // The order in which the paths come out.

  lemma {:induction false} SoleWalk(g: Graph, e: Edge, v: nat, t: Trace)
    requires g.Valid() && Sole(g, e, v) && e.src == 0 && Walk(g, t, v)
    ensures t == [e]
  {
    assert v != 0;
    var q := t[..|t| - 1];
    assert q == [];
    assert t == q + [e];
  }

  /** The path that is dearer where they meet comes out first there. */
  lemma {:induction false} FirstOut(g: Graph, rank: Trace -> real, outs: seq<seq<Trace>>, x: nat, y: nat)
    requires g.Valid() && Emitted(g, rank, outs) && g.size > 4 && Sole(g, TO_Y, 1)
    requires x < |outs[4]| && y < |outs[4]| && outs[4][x] == FIRST && outs[4][y] == SECOND && rank(FIRST) > rank(SECOND)
    ensures x < y
  {
    assert Drained(g, rank, outs, 4);
    assert [TO_Y] + [ON_Y] == FIRST;
    if y < x {
      var e, j, k := Fronts(g, rank, outs, 4, y, x);
      assert e == FIRST[1];
      OnlyWalks(g, rank, outs, 1, j);
      SoleWalk(g, TO_Y, 1, outs[1][j]);
    }
  }

  /** At the end some path comes out before one that costs `gap` more. */
  ghost predicate Misorders(p: Program, start: seq<Info>, infos: map<Edge, seq<Info>>, firmware: nat,
                            outs: seq<seq<Trace>>, gap: nat) {
    && Ready(p, start, infos) && p.g.fin < |outs|
    && exists x, y ::
         0 <= x < y < |outs[p.g.fin]| && Below(p, start, infos, firmware, outs[p.g.fin][x], outs[p.g.fin][y], gap)
  }

  ghost predicate Below(p: Program, start: seq<Info>, infos: map<Edge, seq<Info>>, firmware: nat, t: Trace, u: Trace,
                        gap: nat)
    requires Ready(p, start, infos)
  {
    && Walk(p.g, t, p.g.fin) && Walk(p.g, u, p.g.fin)
    && PathCounters(p, start, infos, firmware, t, p.g.fin).maxCycles + gap
         == PathCounters(p, start, infos, firmware, u, p.g.fin).maxCycles
  }

  /** If the difference is more than one, no order among equals helps. */
  lemma {:induction false} ReversedOut(p: Program, start: seq<Info>, infos: map<Edge, seq<Info>>, firmware: nat,
                                       k: Edge, d: nat, gap: nat, outs: seq<seq<Trace>>)
    requires Reversed(p, start, infos, firmware, k, d, gap) && d > 0 && p.g.size > 4 && Sole(p.g, TO_Y, 1) && k.src == 4
    requires k in p.g.succ && p.g.succ[k] == p.g.fin && Emitted(p.g, MaxRank(p, start, infos, firmware), outs)
    ensures Misorders(p, start, infos, firmware, outs, gap)
  {
    var rank := MaxRank(p, start, infos, firmware);
    var i := AllOut(p.g, rank, outs, FIRST, 4);
    var j := AllOut(p.g, rank, outs, SECOND, 4);
    RankIs(p, start, infos, firmware, FIRST, 4);
    RankIs(p, start, infos, firmware, SECOND, 4);
    FirstOut(p.g, rank, outs, i, j);
    var x, y := InTurn(p.g, rank, outs, k, i, j);
    TotalIs(p, start, infos, firmware, FIRST + [k], p.g.fin);
    TotalIs(p, start, infos, firmware, SECOND + [k], p.g.fin);
    assert Below(p, start, infos, firmware, outs[p.g.fin][x], outs[p.g.fin][y], gap);
  }

  /** Such a program, and the order in which its paths come out. */
  method Misordered(n: Instr, i: Info, j: Info, taken: bool, d: nat, firmware: nat)
    returns (p: Program, a: Analysis, outs: seq<seq<Trace>>)
    requires Cycles.Cycles(n, i, taken) > Cycles.Cycles(n, j, taken) + d && d > 0 && (taken ==> n.Branch?)
    ensures p.Valid() && (Plain(n) ==> Listed(p, ORDER)) && a.p == p && Annotated(p, a.start, a.infos)
    ensures Ready(p, a.start, a.infos) && Emitted(p.g, MaxRank(p, a.start, a.infos, firmware), outs)
    ensures Misorders(p, a.start, a.infos, firmware, outs, Cycles.Cycles(n, i, taken) - Cycles.Cycles(n, j, taken) - d)
  {
    p := Join(n, ArmX(n, i, j), ArmY(n, i, j, d));
    ArmsJoin(n, i, j, taken, d);
    a := new Analysis(p);
    a.Run();
    outs := Emit(p.g, MaxRank(p, a.start, a.infos, firmware));
    JoinCosts(p, n, ArmX(n, i, j), ArmY(n, i, j, d), a.start, a.infos, firmware, taken, d);
    ReversedOut(p, a.start, a.infos, firmware, Edge(4, taken), d,
                Cycles.Cycles(n, i, taken) - Cycles.Cycles(n, j, taken) - d, outs);
  }
}
