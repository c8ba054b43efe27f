/** `cfg::merge_edges`: a block that is followed by one block only, which has no other predecessor, absorbs it. */
module MergeBlocks {

  datatype Kind = Other | Branch | Jump | Fin

  datatype Instr = Instr(id: nat, kind: Kind)

  /** The instructions of a block and its successors by the outcome of the last instruction. */
  datatype Block = Block(instrs: seq<Instr>, next: map<bool, nat>) {
    predicate Shaped() {
      && instrs != []
      && (forall i :: 0 <= i < |instrs| - 1 ==> instrs[i].kind.Other?)
      && next.Keys == match instrs[|instrs| - 1].kind
           case Branch => {true, false}
           case Jump => {true}
           case Fin => {}
           case Other => {false}
    }
  }

  type Blocks = map<nat, Block>

  /** One executed instruction; only the last one of a block may branch. */
  datatype Item = Item(instr: Instr, taken: bool)

  /** The items run through the block without leaving it. */
  predicate Straight(instrs: seq<Instr>, items: seq<Item>)
    requires |items| <= |instrs|
  {
    forall i :: 0 <= i < |items| ==> items[i] == Item(instrs[i], false)
  }

  /** `items` is what is executed from the beginning of block `n` on, up to some point. */
  predicate Runs(g: Blocks, n: nat, items: seq<Item>)
    decreases |items|
  {
    n in g && g[n].instrs != [] &&
    var b := g[n];
    var k := |b.instrs|;
    if |items| < k then Straight(b.instrs, items)
    else
      && Straight(b.instrs, items[..k - 1])
      && items[k - 1].instr == b.instrs[k - 1]
      && var t := items[k - 1].taken;
         if t in b.next then Runs(g, b.next[t], items[k..]) else b.next == map[] && |items| == k && !t
  }

  datatype Edge = Edge(src: nat, taken: bool)

  ghost predicate Leads(g: Blocks, e: Edge, n: nat) {
    e.src in g && e.taken in g[e.src].next && g[e.src].next[e.taken] == n
  }

  /** Block `a` leads nowhere but to `b`, and nothing else leads there. */
  ghost predicate Pair(g: Blocks, a: nat, b: nat) {
    && a in g && b in g && a != b
    && g[a].Shaped() && g[b].Shaped()
    && g[a].instrs[|g[a].instrs| - 1].kind.Other?
    && (forall e {:trigger Leads(g, e, b)} :: Leads(g, e, b) <==> e == Edge(a, false))
  }

  /** `node::merge_node`. */
  function Merged(g: Blocks, a: nat, b: nat): Blocks
    requires a in g && b in g
  {
    g[a := Block(g[a].instrs + g[b].instrs, g[b].next)] - {b}
  }

  lemma {:induction false} PairNext(g: Blocks, a: nat, b: nat)
    requires Pair(g, a, b)
    ensures g[a].next == map[false := b]
    ensures forall n, t :: n in g && n != a && t in g[n].next ==> g[n].next[t] != b
  {
    assert Leads(g, Edge(a, false), b);
    forall n, t | n in g && n != a && t in g[n].next ensures g[n].next[t] != b {
      assert !Leads(g, Edge(n, t), b);
    }
  }

  /** Running through one block and into the next is running through both as one. */
  lemma {:induction false} StraightConcat(x: seq<Instr>, y: seq<Instr>, items: seq<Item>)
    requires |x| <= |items| <= |x| + |y|
    ensures Straight(x + y, items) <==> Straight(x, items[..|x|]) && Straight(y, items[|x|..])
  {
    assert forall i :: 0 <= i < |items| ==> (x + y)[i] == if i < |x| then x[i] else y[i - |x|];
    if Straight(x, items[..|x|]) && Straight(y, items[|x|..]) {
      forall i | 0 <= i < |items| ensures items[i] == Item((x + y)[i], false) {
        if i < |x| {
          assert items[i] == items[..|x|][i];
        } else {
          assert items[i] == items[|x|..][i - |x|];
        }
      }
    }
  }

  /** Merging a pair changes nothing that can be executed, from any block that remains. */
  lemma {:induction false} MergePreserves(g: Blocks, a: nat, b: nat, n: nat, items: seq<Item>)
    requires Pair(g, a, b) && n != b
    ensures Runs(g, n, items) <==> Runs(Merged(g, a, b), n, items)
    decreases |items|, 2
  {
    PairNext(g, a, b);
    if n == a {
      MergePreservesFirst(g, a, b, items);
    } else if n in g && g[n].instrs != [] && |items| >= |g[n].instrs| {
      var k := |g[n].instrs|;
      var t := items[k - 1].taken;
      if t in g[n].next {
        MergePreserves(g, a, b, g[n].next[t], items[k..]);
      }
    }
  }

  /** Through `a` and straight on. */
  lemma {:induction false} FirstRuns(g: Blocks, a: nat, b: nat, items: seq<Item>)
    requires Pair(g, a, b) && |items| >= |g[a].instrs|
    ensures Runs(g, a, items) <==> Straight(g[a].instrs, items[..|g[a].instrs|]) && Runs(g, b, items[|g[a].instrs|..])
  {
    PairNext(g, a, b);
    var x := g[a].instrs;
    var k := |x|;
    assert items[..k] == items[..k - 1] + [items[k - 1]];
    if Straight(x, items[..k]) {
      assert items[..k][k - 1] == items[k - 1];
      assert forall i :: 0 <= i < k - 1 ==> items[..k - 1][i] == items[..k][i];
    }
  }

  lemma {:induction false} MergePreservesFirst(g: Blocks, a: nat, b: nat, items: seq<Item>)
    requires Pair(g, a, b)
    ensures Runs(g, a, items) <==> Runs(Merged(g, a, b), a, items)
    decreases |items|, 1
  {
    var x, y := g[a].instrs, g[b].instrs;
    if |items| < |x| {
      assert Straight(x, items) <==> Straight(x + y, items) by {
        assert forall i :: 0 <= i < |items| ==> (x + y)[i] == x[i];
      }
    } else {
      FirstRuns(g, a, b, items);
      if |items| < |x| + |y| {
        StraightConcat(x, y, items);
      } else {
        MergePreservesBoth(g, a, b, items);
      }
    }
  }

  lemma {:induction false} MergePreservesBoth(g: Blocks, a: nat, b: nat, items: seq<Item>)
    requires Pair(g, a, b) && |items| >= |g[a].instrs| + |g[b].instrs|
    ensures Straight(g[a].instrs, items[..|g[a].instrs|]) && Runs(g, b, items[|g[a].instrs|..])
      <==> Runs(Merged(g, a, b), a, items)
    decreases |items|, 0
  {
    PairNext(g, a, b);
    var x, y := g[a].instrs, g[b].instrs;
    var m := |x| + |y|;
    StraightConcat(x, y, items[..m - 1]);
    Slices(items, |x|, m);
    RunsThrough(g, b, items[|x|..]);
    RunsThrough(Merged(g, a, b), a, items);
    assert (x + y)[m - 1] == y[|y| - 1];
    var t := items[m - 1].taken;
    if t in g[b].next {
      MergePreserves(g, a, b, g[b].next[t], items[m..]);
    }
  }

  /** The items pass through block `n` and go on with the next one. */
  predicate Onward(g: Blocks, b: Block, items: seq<Item>, k: nat)
    requires 0 < k <= |items|
  {
    var t := items[k - 1].taken;
    if t in b.next then Runs(g, b.next[t], items[k..]) else b.next == map[] && |items| == k && !t
  }

  lemma {:induction false} RunsThrough(g: Blocks, n: nat, items: seq<Item>)
    requires n in g && g[n].instrs != [] && |items| >= |g[n].instrs|
    ensures var k := |g[n].instrs|;
      Runs(g, n, items) <==>
        (Straight(g[n].instrs, items[..k - 1]) && items[k - 1].instr == g[n].instrs[k - 1] && Onward(g, g[n], items, k))
  {
  }

  lemma {:induction false} Slices(items: seq<Item>, k: nat, m: nat)
    requires k < m <= |items|
    ensures items[..m - 1][..k] == items[..k] && items[..m - 1][k..] == items[k..][..m - k - 1]
    ensures items[k..][m - k - 1] == items[m - 1] && items[k..][m - k..] == items[m..]
  {
  }

  // The graph as it is stored.

  ghost predicate NoRepeat(ps: seq<Edge>) {
    forall i, j :: 0 <= i < j < |ps| ==> ps[i] != ps[j]
  }

  ghost predicate Listed(g: Blocks, preds: map<nat, seq<Edge>>, n: nat) {
    && n in preds && NoRepeat(preds[n])
    && (forall e {:trigger Leads(g, e, n)} :: e in preds[n] <==> Leads(g, e, n))
  }

  ghost predicate Inside(g: Blocks, n: nat) {
    n in g && g[n].Shaped() && forall t :: t in g[n].next ==> g[n].next[t] in g
  }

  /** Every block but the first has a predecessor that is nearer to the first. */
  ghost predicate Grounded(preds: map<nat, seq<Edge>>, depth: map<nat, nat>, n: nat) {
    n in preds && exists i :: 0 <= i < |preds[n]| && Nearer(depth, preds[n][i].src, n)
  }

  ghost predicate Nearer(depth: map<nat, nat>, m: nat, n: nat) { m in depth && n in depth && depth[m] < depth[n] }

  ghost predicate Graph(g: Blocks, preds: map<nat, seq<Edge>>, start: nat, depth: map<nat, nat>) {
    && g.Keys == preds.Keys && start in g && preds[start] == []
    && (forall n {:trigger Inside(g, n)} :: n in g ==> Inside(g, n))
    && (forall n {:trigger Listed(g, preds, n)} :: n in g ==> Listed(g, preds, n))
    && (forall n {:trigger Grounded(preds, depth, n)} :: n in g && n != start ==> Grounded(preds, depth, n))
  }

  predicate Mergeable(g: Blocks, preds: map<nat, seq<Edge>>, n: nat) {
    && n in g && g[n].instrs != []
    && !g[n].instrs[|g[n].instrs| - 1].kind.Jump?
    && |g[n].next| == 1
    && (forall t :: t in g[n].next ==> Sole(preds, g[n].next[t]))
  }

  /** `indegree() == 1`. */
  predicate Sole(preds: map<nat, seq<Edge>>, m: nat) { m in preds && |preds[m]| == 1 }

  lemma {:induction false} OneOutcome(g: Blocks, n: nat)
    requires Inside(g, n) && |g[n].next| == 1 && !g[n].instrs[|g[n].instrs| - 1].kind.Jump?
    ensures g[n].instrs[|g[n].instrs| - 1].kind.Other? && g[n].next.Keys == {false}
  {
    assert |g[n].next.Keys| == 1;
  }

  lemma {:induction false} OnePredecessor(g: Blocks, preds: map<nat, seq<Edge>>, start: nat, depth: map<nat,
                                          nat>, n: nat)
    requires Graph(g, preds, start, depth) && Mergeable(g, preds, n)
    ensures false in g[n].next && g[n].next[false] in g && g[n].next[false] != start
    ensures Pair(g, n, g[n].next[false]) && preds[g[n].next[false]] == [Edge(n, false)]
  {
    assert Inside(g, n);
    OneOutcome(g, n);
    var b := g[n].next[false];
    assert Inside(g, b) && Listed(g, preds, b);
    SingleEdge(g, preds, b, n);
    assert preds[b][0].src == n;
    if b != start {
      assert Grounded(preds, depth, b);
    }
  }

  lemma {:induction false} SingleEdge(g: Blocks, preds: map<nat, seq<Edge>>, b: nat, n: nat)
    requires Listed(g, preds, b) && |preds[b]| == 1 && Leads(g, Edge(n, false), b)
    ensures preds[b] == [Edge(n, false)]
    ensures forall e {:trigger Leads(g, e, b)} :: Leads(g, e, b) <==> e == Edge(n, false)
  {
    assert Edge(n, false) in preds[b];
    assert preds[b] == [preds[b][0]];
  }

  function Renamed(e: Edge, a: nat, b: nat): Edge { if e.src == b then Edge(a, e.taken) else e }

  /** `std::replace` in the predecessors of what `b` led to. */
  function Moved(preds: map<nat, seq<Edge>>, a: nat, b: nat): map<nat, seq<Edge>> {
    map n | n in preds && n != b :: seq(|preds[n]|, i requires 0 <= i < |preds[n]| => Renamed(preds[n][i], a, b))
  }

  lemma {:induction false} NotFromFirst(g: Blocks, a: nat, b: nat, e: Edge, n: nat)
    requires Pair(g, a, b) && Leads(g, e, n) && n != b
    ensures e.src != a
  {
    PairNext(g, a, b);
  }

  lemma {:induction false} RenamedLeads(g: Blocks, a: nat, b: nat, e: Edge, n: nat)
    requires Pair(g, a, b) && Leads(g, e, n) && n != b
    ensures Leads(Merged(g, a, b), Renamed(e, a, b), n)
  {
    NotFromFirst(g, a, b, e, n);
  }

  lemma {:induction false} LeadsBack(g: Blocks, a: nat, b: nat, e: Edge, n: nat)
    requires Pair(g, a, b) && Leads(Merged(g, a, b), e, n)
    ensures Leads(g, if e.src == a then Edge(b, e.taken) else e, n)
  {
  }

  lemma {:induction false} MergedListed(g: Blocks, preds: map<nat, seq<Edge>>, a: nat, b: nat, n: nat)
    requires Pair(g, a, b) && Listed(g, preds, n) && n != b
    ensures Listed(Merged(g, a, b), Moved(preds, a, b), n)
  {
    var g', ps, ps' := Merged(g, a, b), preds[n], Moved(preds, a, b)[n];
    forall i | 0 <= i < |ps| ensures ps[i].src != a && Leads(g', ps'[i], n) {
      assert ps[i] in ps;
      NotFromFirst(g, a, b, ps[i], n);
      RenamedLeads(g, a, b, ps[i], n);
    }
    forall i, j | 0 <= i < j < |ps'| ensures ps'[i] != ps'[j] {
      assert ps[i] != ps[j];
    }
    forall e ensures e in ps' <==> Leads(g', e, n) {
      if Leads(g', e, n) {
        LeadsBack(g, a, b, e, n);
        var e' := if e.src == a then Edge(b, e.taken) else e;
        var i :| 0 <= i < |ps| && ps[i] == e';
        assert ps'[i] == e;
      }
    }
  }

  lemma {:induction false} MergedGrounded(preds: map<nat, seq<Edge>>, depth: map<nat, nat>, a: nat, b: nat, n: nat)
    requires Grounded(preds, depth, n) && n != b && Nearer(depth, a, b)
    ensures Grounded(Moved(preds, a, b), depth, n)
  {
    var i :| 0 <= i < |preds[n]| && Nearer(depth, preds[n][i].src, n);
    assert Moved(preds, a, b)[n][i] == Renamed(preds[n][i], a, b);
  }

  lemma {:induction false} MergedGraph(g: Blocks, preds: map<nat, seq<Edge>>, start: nat, depth: map<nat, nat>,
                                       a: nat, b: nat)
    requires Graph(g, preds, start, depth) && Pair(g, a, b) && b != start && preds[b] == [Edge(a, false)]
    ensures Graph(Merged(g, a, b), Moved(preds, a, b), start, depth)
  {
    PairNext(g, a, b);
    var g', preds' := Merged(g, a, b), Moved(preds, a, b);
    assert Grounded(preds, depth, b);
    forall n | n in g' ensures Inside(g', n) {
      assert Inside(g, n) && Inside(g, b);
      if n == a {
        var x, y := g[a].instrs, g[b].instrs;
        assert forall t :: t in g[b].next ==> g[b].next[t] != b;
        assert forall i :: 0 <= i < |x + y| ==> (x + y)[i] == if i < |x| then x[i] else y[i - |x|];
      }
    }
    forall n | n in g' ensures Listed(g', preds', n) {
      assert Listed(g, preds, n);
      MergedListed(g, preds, a, b, n);
    }
    forall n | n in g' && n != start ensures Grounded(preds', depth, n) {
      assert Grounded(preds, depth, n);
      MergedGrounded(preds, depth, a, b, n);
    }
  }

  /** What could not be merged cannot be merged later. */
  lemma {:induction false} StaysUnmergeable(g: Blocks, preds: map<nat, seq<Edge>>, a: nat, b: nat, n: nat)
    requires Pair(g, a, b) && n != a && n != b && !Mergeable(g, preds, n)
    ensures !Mergeable(Merged(g, a, b), Moved(preds, a, b), n)
  {
    PairNext(g, a, b);
    if n in g {
      assert Merged(g, a, b)[n] == g[n];
      forall t | t in g[n].next ensures Sole(Moved(preds, a, b), g[n].next[t]) ==> Sole(preds, g[n].next[t]) {
        SoleBack(preds, a, b, g[n].next[t]);
      }
    }
  }

  lemma {:induction false} SoleBack(preds: map<nat, seq<Edge>>, a: nat, b: nat, m: nat)
    ensures Sole(Moved(preds, a, b), m) ==> Sole(preds, m)
  {
  }

  // Which blocks disappear.

  /** `m` can absorb `n`. */
  ghost predicate Absorbs(g: Blocks, preds: map<nat, seq<Edge>>, m: nat, n: nat) {
    Mergeable(g, preds, m) && false in g[m].next && g[m].next[false] == n
  }

  ghost predicate Absorbed(g: Blocks, preds: map<nat, seq<Edge>>, n: nat) { exists m :: Absorbs(g, preds, m, n) }

  lemma {:induction false} SoleMoved(preds: map<nat, seq<Edge>>, a: nat, b: nat, m: nat)
    requires m != b
    ensures Sole(Moved(preds, a, b), m) <==> Sole(preds, m)
  {
  }

  /** Merging `b` into `a` leaves it open who absorbs whom, but that `a` takes over from `b`. */
  lemma {:induction false} AbsorbsMerged(g: Blocks, preds: map<nat, seq<Edge>>, a: nat, b: nat, m: nat, n: nat)
    requires Pair(g, a, b) && n != b && m != b
    ensures Absorbs(Merged(g, a, b), Moved(preds, a, b), m, n) <==> Absorbs(g, preds, if m == a then b else m, n)
  {
    PairNext(g, a, b);
    var k := if m == a then b else m;
    if k in g {
      assert Merged(g, a, b)[m].next == g[k].next;
      assert Merged(g, a, b)[m].instrs != [] && g[k].instrs != [] ==>
          Merged(g, a, b)[m].instrs[|Merged(g, a, b)[m].instrs| - 1] == g[k].instrs[|g[k].instrs| - 1];
      forall t | t in g[k].next ensures Sole(Moved(preds, a, b), g[k].next[t]) <==> Sole(preds, g[k].next[t]) {
        SoleMoved(preds, a, b, g[k].next[t]);
      }
    }
  }

  lemma {:induction false} AbsorbedMerged(g: Blocks, preds: map<nat, seq<Edge>>, a: nat, b: nat, n: nat)
    requires Pair(g, a, b) && n != b
    ensures Absorbed(Merged(g, a, b), Moved(preds, a, b), n) <==> Absorbed(g, preds, n)
  {
    var g', preds' := Merged(g, a, b), Moved(preds, a, b);
    if m :| Absorbs(g, preds, m, n) {
      PairNext(g, a, b);
      assert m != a;
      AbsorbsMerged(g, preds, a, b, if m == b then a else m, n);
    }
    if m :| Absorbs(g', preds', m, n) {
      AbsorbsMerged(g, preds, a, b, m, n);
    }
  }

  /** `n` is left or was absorbed, and what is left can be absorbed if it always could. */
  ghost predicate Accounted(g0: Blocks, preds0: map<nat, seq<Edge>>, g: Blocks, preds: map<nat, seq<Edge>>, n: nat) {
    n in g0 ==> Absorbed(g0, preds0, n) == (n in g ==> Absorbed(g, preds, n))
  }

  ghost predicate AllAccounted(g0: Blocks, preds0: map<nat, seq<Edge>>, g: Blocks, preds: map<nat, seq<Edge>>) {
    forall n {:trigger Accounted(g0, preds0, g, preds, n)} :: Accounted(g0, preds0, g, preds, n)
  }

  lemma {:induction false} AccountedNext(g0: Blocks, preds0: map<nat, seq<Edge>>, g: Blocks,
                                         preds: map<nat, seq<Edge>>, a: nat, b: nat)
    requires AllAccounted(g0, preds0, g, preds) && Pair(g, a, b) && Absorbs(g, preds, a, b)
    ensures AllAccounted(g0, preds0, Merged(g, a, b), Moved(preds, a, b))
  {
    forall n ensures Accounted(g0, preds0, Merged(g, a, b), Moved(preds, a, b), n) {
      assert Accounted(g0, preds0, g, preds, n);
      if n != b {
        AbsorbedMerged(g, preds, a, b, n);
      }
    }
  }

  /** A block disappears exactly if it was absorbed by another. */
  ghost predicate Vanishes(g0: Blocks, preds0: map<nat, seq<Edge>>, g: Blocks, n: nat) {
    n in g0 ==> (n !in g <==> Absorbed(g0, preds0, n))
  }

  lemma {:induction false} Vanished(g0: Blocks, preds0: map<nat, seq<Edge>>, g: Blocks, preds: map<nat, seq<Edge>>,
                                    n: nat)
    requires AllAccounted(g0, preds0, g, preds) && forall m :: m in g ==> !Mergeable(g, preds, m)
    ensures Vanishes(g0, preds0, g, n)
  {
    assert Accounted(g0, preds0, g, preds, n);
  }

  /** The last instruction of a block neither branches nor ends the program. */
  predicate FallsThrough(g: Blocks, n: nat) {
    n in g && g[n].instrs != [] && g[n].instrs[|g[n].instrs| - 1].kind.Other?
  }

  /** A block can be absorbed exactly if one edge leads to it, from a block that does not branch. */
  lemma {:induction false} AbsorbedExactly(g: Blocks, preds: map<nat, seq<Edge>>, start: nat, depth: map<nat, nat>,
                                           n: nat)
    requires Graph(g, preds, start, depth) && n in g
    ensures Absorbed(g, preds, n) <==> |preds[n]| == 1 && FallsThrough(g, preds[n][0].src)
  {
    if m :| Absorbs(g, preds, m, n) {
      OnePredecessor(g, preds, start, depth, m);
      assert Inside(g, m);
    }
    if |preds[n]| == 1 && FallsThrough(g, preds[n][0].src) {
      var e := preds[n][0];
      assert e in preds[n] && Listed(g, preds, n) && Inside(g, e.src);
      assert Leads(g, e, n);
      assert g[e.src].next.Keys == {false} && |g[e.src].next.Keys| == 1;
      assert Absorbs(g, preds, e.src, n);
    }
  }

  /** The block with the last instruction of the program is a block like any other. */
  lemma {:induction false} FinalAbsorbed(g: Blocks, preds: map<nat, seq<Edge>>)
    requires g == map[0 := Block([Instr(0, Other)], map[false := 1]), 1 := Block([Instr(1, Fin)], map[])]
    requires preds == map[0 := [], 1 := [Edge(0, false)]]
    ensures Graph(g, preds, 0, map[0 := 0, 1 := 1]) && Mergeable(g, preds, 0) && 1 !in Merged(g, 0, 1)
    ensures Absorbed(g, preds, 1)
  {
    assert |map[false := 1].Keys| == 1;
    assert Listed(g, preds, 1) by {
      assert forall e :: Leads(g, e, 1) <==> e == Edge(0, false);
    }
    assert Nearer(map[0 := 0, 1 := 1], preds[1][0].src, 1);
    assert Absorbs(g, preds, 0, 1);
  }

  /** What holds between two rounds of the first loop. */
  ghost predicate Merging(g0: Blocks, g: Blocks, preds: map<nat, seq<Edge>>, nodes: seq<nat>, deleted: set<nat>,
                          i: nat) {
    Same(g0, g, nodes, deleted) && Settled(g, preds, nodes, i)
  }

  lemma {:induction false} MergeRound(g0: Blocks, g: Blocks, preds: map<nat, seq<Edge>>, nodes: seq<nat>,
                                      deleted: set<nat>, i: nat,
                   start: nat, depth: map<nat, nat>, n: nat)
    requires Graph(g, preds, start, depth) && Merging(g0, g, preds, nodes, deleted, i) && Mergeable(g, preds, n)
    ensures n in g && false in g[n].next && g[n].next[false] in g
    ensures var b := g[n].next[false];
      && Graph(Merged(g, n, b), Moved(preds, n, b), start, depth)
      && Merging(g0, Merged(g, n, b), Moved(preds, n, b), nodes, deleted + {b}, i)
      && |Merged(g, n, b)| < |g| && Pair(g, n, b) && Absorbs(g, preds, n, b)
  {
    OnePredecessor(g, preds, start, depth, n);
    var b := g[n].next[false];
    MergedGraph(g, preds, start, depth, n, b);
    SettledNext(g, preds, nodes, i, n, b);
    SameNext(g0, g, nodes, deleted, n, b);
    assert g.Keys == Merged(g, n, b).Keys + {b};
  }

  lemma {:induction false} SettledAll(g: Blocks, preds: map<nat, seq<Edge>>, nodes: seq<nat>, n: nat)
    requires Settled(g, preds, nodes, |nodes|) && n in nodes
    ensures !Mergeable(g, preds, n)
  {
    var k :| 0 <= k < |nodes| && nodes[k] == n;
  }

  class Cfg {
    var blocks: Blocks
    var preds: map<nat, seq<Edge>>
    var nodes: seq<nat>
    const start: nat
    ghost const depth: map<nat, nat>     // distances from the first block

    constructor (blocks: Blocks, preds: map<nat, seq<Edge>>, nodes: seq<nat>, start: nat, ghost depth: map<nat, nat>)
      requires Graph(blocks, preds, start, depth)
      ensures Valid() && this.blocks == blocks && this.nodes == nodes && this.start == start
    {
      this.blocks, this.preds, this.nodes, this.start, this.depth := blocks, preds, nodes, start, depth;
    }

    ghost predicate Valid() reads this { Graph(blocks, preds, start, depth) }

    /** `merge_edges`: what can be executed from the blocks that remain, with all branch outcomes, stays the
    same, nothing is left to merge, and a block disappears exactly if some block could absorb it. */
    method MergeEdges()
      requires Valid() && forall n :: n in blocks <==> n in nodes
      modifies this`blocks, this`preds, this`nodes
      ensures Valid() && forall n :: n in blocks <==> n in nodes
      ensures blocks.Keys <= old(blocks.Keys) && SameRuns(old(blocks), blocks)
      ensures forall n :: n in blocks ==> !Mergeable(blocks, preds, n)
      ensures forall n {:trigger Vanishes(old(blocks), old(preds), blocks, n)} ::
                Vanishes(old(blocks), old(preds), blocks, n)
    {
      var deleted := MergeAll();
      forall n ensures Vanishes(old(blocks), old(preds), blocks, n) {
        Vanished(old(blocks), old(preds), blocks, preds, n);
      }
      Sweep(deleted);
    }

    /** The first loop. */
    method MergeAll() returns (deleted: set<nat>)
      requires Valid() && forall n :: n in blocks <==> n in nodes
      modifies this`blocks, this`preds
      ensures Valid() && Same(old(blocks), blocks, nodes, deleted)
      ensures forall n :: n in nodes ==> !Mergeable(blocks, preds, n)
      ensures AllAccounted(old(blocks), old(preds), blocks, preds)
    {
      deleted := {};
      var i := 0;
      while i < |nodes|
        invariant 0 <= i <= |nodes| && Valid() && Merging(old(blocks), blocks, preds, nodes, deleted, i)
        invariant AllAccounted(old(blocks), old(preds), blocks, preds)
        decreases |blocks|, |nodes| - i
      {
        if nodes[i] in deleted || !Mergeable(blocks, preds, nodes[i]) {
          Unmergeable(old(blocks), blocks, preds, nodes, deleted, i);
          i := i + 1;
        } else {
          deleted := MergeNode(nodes[i], deleted, i, old(blocks), old(preds));
        }
      }
      forall n | n in nodes ensures !Mergeable(blocks, preds, n) {
        SettledAll(blocks, preds, nodes, n);
      }
    }

    method MergeNode(n: nat, deleted: set<nat>, ghost i: nat, ghost g0: Blocks, ghost preds0: map<nat, seq<Edge>>)
      returns (deleted': set<nat>)
      requires Valid() && Merging(g0, blocks, preds, nodes, deleted, i) && Mergeable(blocks, preds, n)
      requires AllAccounted(g0, preds0, blocks, preds)
      modifies this`blocks, this`preds
      ensures AllAccounted(g0, preds0, blocks, preds)
      ensures Valid() && Merging(g0, blocks, preds, nodes, deleted', i) && |blocks| < |old(blocks)|
    {
      MergeRound(g0, blocks, preds, nodes, deleted, i, start, depth, n);
      var b := blocks[n].next[false];
      AccountedNext(g0, preds0, blocks, preds, n, b);
      blocks, preds := Merged(blocks, n, b), Moved(preds, n, b);
      deleted' := deleted + {b};
    }

    /** The last loop: each deleted node is replaced by the last one. */
    method Sweep(deleted: set<nat>)
      modifies this`nodes
      ensures forall n :: n in nodes <==> n in old(nodes) && n !in deleted
    {
      var i := 0;
      while i < |nodes|
        invariant 0 <= i <= |nodes|
        invariant forall n :: n in nodes[..i] ==> n !in deleted
        invariant forall n :: n !in deleted ==> (n in nodes <==> n in old(nodes))
        invariant forall n :: n in nodes ==> n in old(nodes)
        decreases |nodes| - i
      {
        if nodes[i] in deleted {
          var last := nodes[|nodes| - 1];
          SweepStep(nodes, i, deleted);
          nodes := nodes[i := last][..|nodes| - 1];
        } else {
          assert nodes[..i + 1] == nodes[..i] + [nodes[i]];
          i := i + 1;
        }
      }
      assert nodes[..i] == nodes;
    }
  }

  lemma {:induction false} SweepStep(s: seq<nat>, i: nat, deleted: set<nat>)
    requires i < |s| && s[i] in deleted
    ensures var r := s[i := s[|s| - 1]][..|s| - 1];
      r[..i] == s[..i] && (forall n :: n !in deleted ==> (n in r <==> n in s)) && (forall n :: n in r ==> n in s)
  {
    var r := s[i := s[|s| - 1]][..|s| - 1];
    forall n | n !in deleted && n in s ensures n in r {
      var k :| 0 <= k < |s| && s[k] == n;
      assert r[if k == |s| - 1 then i else k] == n;
    }
  }

  /** What remains runs as before; what does not remain was deleted. */
  ghost predicate Same(g: Blocks, g': Blocks, nodes: seq<nat>, deleted: set<nat>) {
    && g'.Keys <= g.Keys
    && (forall n :: n in g' <==> n in nodes && n !in deleted)
    && SameRuns(g, g')
  }

  ghost predicate SameRuns(g: Blocks, g': Blocks) {
    forall n, items {:trigger Runs(g', n, items)} :: n in g' ==> (Runs(g, n, items) <==> Runs(g', n, items))
  }

  lemma {:induction false} Unmergeable(g0: Blocks, g: Blocks, preds: map<nat, seq<Edge>>, nodes: seq<nat>,
                                       deleted: set<nat>, i: nat)
    requires Merging(g0, g, preds, nodes, deleted, i) && i < |nodes|
    requires nodes[i] in deleted || !Mergeable(g, preds, nodes[i])
    ensures Merging(g0, g, preds, nodes, deleted, i + 1)
  {
  }

  lemma {:induction false} SameNext(g: Blocks, g': Blocks, nodes: seq<nat>, deleted: set<nat>, a: nat, b: nat)
    requires Same(g, g', nodes, deleted) && Pair(g', a, b)
    ensures Same(g, Merged(g', a, b), nodes, deleted + {b})
  {
    var g'' := Merged(g', a, b);
    forall n, items | n in g'' ensures Runs(g, n, items) <==> Runs(g'', n, items) {
      MergePreserves(g', a, b, n, items);
    }
  }

  /** The nodes up to `i` cannot be merged. */
  ghost predicate Settled(g: Blocks, preds: map<nat, seq<Edge>>, nodes: seq<nat>, i: nat) {
    forall k :: 0 <= k < i && k < |nodes| ==> !Mergeable(g, preds, nodes[k])
  }

  lemma {:induction false} SettledNext(g: Blocks, preds: map<nat, seq<Edge>>, nodes: seq<nat>, i: nat, a: nat, b: nat)
    requires Settled(g, preds, nodes, i) && Pair(g, a, b) && Mergeable(g, preds, a)
    ensures Settled(Merged(g, a, b), Moved(preds, a, b), nodes, i)
  {
    forall k | 0 <= k < i && k < |nodes| ensures !Mergeable(Merged(g, a, b), Moved(preds, a, b), nodes[k]) {
      if nodes[k] != b {
        StaysUnmergeable(g, preds, a, b, nodes[k]);
      }
    }
  }
}
