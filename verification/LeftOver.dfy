/** `cfg::underestimate_packetrate` goes over all nodes, also those that `topo_sort` could not place. */
module LeftOver {
  import opened Dag
  import opened Wrappers
  import TopoSort

  function Gain(weight: map<Edge, real>, e: Edge): real { if e in weight then weight[e] else 0.0 }

  predicate Leaves(g: TopoSort.Cfg, v: nat) { Edge(v, true) in g.succ || Edge(v, false) in g.succ }

  /** A path of cost `c` is extended over `e`, and replaces a cheaper one. */
  function Extended(g: TopoSort.Cfg, weight: map<Edge, real>, best: map<nat, real>, c: real, e: Edge): map<nat, real> {
    if e !in g.succ then best
    else
      var s, c' := g.succ[e], c + Gain(weight, e);
      if s in best && c' <= best[s] then best else best[s := c']
  }

  /** The loop body: nothing to go on from a node with successors is a null pointer. */
  function ExtendNode(g: TopoSort.Cfg, weight: map<Edge, real>, best: map<nat, real>, v: nat): Option<map<nat, real>> {
    if !Leaves(g, v) then Some(best)
    else if v !in best then None
    else Some(Extended(g, weight, Extended(g, weight, best, best[v], Edge(v, true)), best[v], Edge(v, false)))
  }

  /** The entries after the nodes of `order`. */
  function Along(g: TopoSort.Cfg, base: real, weight: map<Edge, real>, order: seq<nat>): Option<map<nat, real>> {
    if order == [] then Some(map[g.start := base])
    else
      match Along(g, base, weight, order[..|order| - 1])
      case None => None
      case Some(best) => ExtendNode(g, weight, best, order[|order| - 1])
  }

  /** An edge leads to `v` from one of the nodes in `order`. */
  ghost predicate Entered(g: TopoSort.Cfg, order: seq<nat>, v: nat) {
    exists e :: e in g.succ && g.succ[e] == v && e.src in order
  }

  ghost predicate HasEntry(g: TopoSort.Cfg, order: seq<nat>, v: nat) { v == g.start || Entered(g, order, v) }

  predicate LeadsTo(g: TopoSort.Cfg, v: nat, u: nat) {
    || (Edge(v, true) in g.succ && g.succ[Edge(v, true)] == u)
    || (Edge(v, false) in g.succ && g.succ[Edge(v, false)] == u)
  }

  lemma {:induction false} EnteredMore(g: TopoSort.Cfg, order: seq<nat>, v: nat, u: nat)
    ensures Entered(g, order + [v], u) <==> Entered(g, order, u) || LeadsTo(g, v, u)
  {
    if e :| e in g.succ && g.succ[e] == u && e.src in order + [v] {
      if e.src !in order {
        assert e == Edge(v, e.taken);
      }
    }
    if e :| e in g.succ && g.succ[e] == u && e.src in order {
      assert e.src in order + [v];
    }
  }

  /** There is an entry for the start and for what was reached over an edge. */
  lemma {:induction false} AlongKeys(g: TopoSort.Cfg, base: real, weight: map<Edge, real>, order: seq<nat>, u: nat)
    requires Along(g, base, weight, order).Some?
    ensures u in Along(g, base, weight, order).value <==> HasEntry(g, order, u)
  {
    if order != [] {
      var init, v := order[..|order| - 1], order[|order| - 1];
      AlongLast(g, base, weight, order);
      AlongKeys(g, base, weight, init, u);
      EnteredMore(g, init, v, u);
      assert order == init + [v];
      ExtendKeys(g, weight, Along(g, base, weight, init).value, v, u);
    }
  }

  lemma {:induction false} AlongLast(g: TopoSort.Cfg, base: real, weight: map<Edge, real>, order: seq<nat>)
    requires order != [] && Along(g, base, weight, order).Some?
    ensures Along(g, base, weight, order[..|order| - 1]).Some?
    ensures Along(g, base, weight, order)
         == ExtendNode(g, weight, Along(g, base, weight, order[..|order| - 1]).value, order[|order| - 1])
  {
  }

  lemma {:induction false} ExtendKeys(g: TopoSort.Cfg, weight: map<Edge, real>, best: map<nat, real>, v: nat, u: nat)
    requires ExtendNode(g, weight, best, v).Some?
    ensures u in ExtendNode(g, weight, best, v).value <==> u in best || LeadsTo(g, v, u)
  {
  }

  ghost predicate Supplied(g: TopoSort.Cfg, order: seq<nat>, k: nat) {
    k < |order| && Leaves(g, order[k]) ==> HasEntry(g, order[..k], order[k])
  }

  /** No null pointer is followed exactly if each node with successors has an entry when its turn comes. */
  lemma {:induction false} AlongDefined(g: TopoSort.Cfg, base: real, weight: map<Edge, real>, order: seq<nat>)
    ensures Along(g, base, weight, order).Some? <==>
            forall k: nat {:trigger Supplied(g, order, k)} :: Supplied(g, order, k)
  {
    if order != [] {
      var init, v := order[..|order| - 1], order[|order| - 1];
      AlongDefined(g, base, weight, init);
      forall k: nat | k < |init| ensures Supplied(g, init, k) <==> Supplied(g, order, k) {
        assert init[..k] == order[..k] && init[k] == order[k];
      }
      assert order[..|init|] == init;
      if Along(g, base, weight, init).Some? {
        AlongKeys(g, base, weight, init, v);
        assert Supplied(g, order, |init|) <==> (Leaves(g, v) ==> HasEntry(g, init, v));
      } else {
        var k: nat :| !Supplied(g, init, k);
        assert !Supplied(g, order, k);
      }
      if Along(g, base, weight, order).Some? {
        forall k: nat ensures Supplied(g, order, k) {
          if k < |init| {
            assert Supplied(g, init, k);
          }
        }
      }
    }
  }

  /** The nodes that were placed, and the others behind them in some order. */
  ghost predicate Completion(g: TopoSort.Cfg, placed: seq<nat>, all: seq<nat>) {
    && |placed| <= |all| && all[..|placed|] == placed
    && TopoSort.NoRepeat(all) && forall v :: v in all <==> v in g.nodes
  }

  /** What `topo_sort` leaves: the start first, and every other placed node behind all its predecessors. */
  ghost predicate Placement(g: TopoSort.Cfg, placed: seq<nat>) {
    && TopoSort.NoRepeat(placed) && TopoSort.Topological(g, placed) && (forall v :: v in placed ==> v in g.nodes)
    && placed != [] && placed[0] == g.start
    && (forall k {:trigger placed[k]} :: 0 < k < |placed| ==> HasPred(g, placed[k]))
  }

  ghost predicate HasPred(g: TopoSort.Cfg, v: nat) { exists e :: e in g.succ && g.succ[e] == v }

  /** No left-over node depends on another for its entry. */
  ghost predicate Independent(g: TopoSort.Cfg, placed: seq<nat>) {
    forall v {:trigger Entered(g, placed, v)} :: v in g.nodes && v !in placed && Leaves(g, v) ==> Entered(g, placed, v)
  }

  lemma {:induction false} PlacedSupplied(g: TopoSort.Cfg, placed: seq<nat>, k: nat)
    requires Placement(g, placed)
    ensures Supplied(g, placed, k)
  {
    if 0 < k < |placed| {
      assert HasPred(g, placed[k]);
      var e :| e in g.succ && g.succ[e] == placed[k];
      assert e.src in placed[..k];
    }
  }

  lemma {:induction false} EnteredBefore(g: TopoSort.Cfg, placed: seq<nat>, order: seq<nat>, v: nat)
    requires Entered(g, placed, v) && forall u :: u in placed ==> u in order
    ensures Entered(g, order, v)
  {
  }

  lemma {:induction false} CompletionSupplied(g: TopoSort.Cfg, placed: seq<nat>, all: seq<nat>, k: nat)
    requires Placement(g, placed) && Independent(g, placed) && Completion(g, placed, all)
    ensures Supplied(g, all, k)
  {
    if k < |placed| {
      PlacedSupplied(g, placed, k);
      assert all[..k] == placed[..k] && all[k] == placed[k];
    } else if k < |all| && Leaves(g, all[k]) {
      NotPlaced(g, placed, all, k);
      assert Entered(g, placed, all[k]);
      assert placed == all[..k][..|placed|];
      EnteredBefore(g, placed, all[..k], all[k]);
    }
  }

  lemma {:induction false} Completes(g: TopoSort.Cfg, s: seq<nat>) returns (all: seq<nat>)
    requires TopoSort.NoRepeat(s) && forall v :: v in s ==> v in g.nodes
    ensures Completion(g, s, all)
    decreases |TopoSort.Unplaced(g, s)|
  {
    if v :| v in g.nodes && v !in s {
      TopoSort.AppendFresh(s, v);
      assert TopoSort.Unplaced(g, s) == TopoSort.Unplaced(g, s + [v]) + {v};
      all := Completes(g, s + [v]);
      assert s == all[..|s| + 1][..|s|];
    } else {
      all := s;
    }
  }

  /** Whatever the order of the left-over nodes, no null pointer is followed, exactly if they are independent. */
  lemma {:induction false} DefinedExactly(g: TopoSort.Cfg, base: real, weight: map<Edge, real>, placed: seq<nat>)
    requires Placement(g, placed)
    ensures Independent(g, placed) <==>
            forall all {:trigger Completion(g, placed, all)} ::
              Completion(g, placed, all) ==> Along(g, base, weight, all).Some?
    ensures (forall v :: v in g.nodes ==> v in placed) ==> Independent(g, placed)
  {
    if Independent(g, placed) {
      forall all | Completion(g, placed, all) ensures Along(g, base, weight, all).Some? {
        forall k: nat ensures Supplied(g, all, k) {
          CompletionSupplied(g, placed, all, k);
        }
        AlongDefined(g, base, weight, all);
      }
    } else {
      var v :| v in g.nodes && v !in placed && Leaves(g, v) && !Entered(g, placed, v);
      var all := Stuck(g, base, weight, placed, v);
      assert Completion(g, placed, all);
    }
  }

  lemma {:induction false} Stuck(g: TopoSort.Cfg, base: real, weight: map<Edge, real>, placed: seq<nat>, v: nat)
    returns (all: seq<nat>)
    requires Placement(g, placed) && v in g.nodes && v !in placed && Leaves(g, v) && !Entered(g, placed, v)
    ensures Completion(g, placed, all) && Along(g, base, weight, all).None?
  {
    TopoSort.AppendFresh(placed, v);
    all := Completes(g, placed + [v]);
    var k := |placed|;
    assert all[..k] == all[..k + 1][..k] == placed && all[k] == all[..k + 1][k] == v;
    assert placed[0] == g.start;
    assert !Supplied(g, all, k);
    AlongDefined(g, base, weight, all);
  }

  lemma {:induction false} ExtendKeeps(g: TopoSort.Cfg, weight: map<Edge, real>, best: map<nat, real>, v: nat, u: nat)
    requires ExtendNode(g, weight, best, v).Some? && u in best && !LeadsTo(g, v, u)
    ensures u in ExtendNode(g, weight, best, v).value && ExtendNode(g, weight, best, v).value[u] == best[u]
  {
  }

  lemma {:induction false} AlongKeeps(g: TopoSort.Cfg, base: real, weight: map<Edge, real>, order: seq<nat>,
                                      more: seq<nat>, u: nat)
    requires Along(g, base, weight, order + more).Some? && forall k :: 0 <= k < |more| ==> !LeadsTo(g, more[k], u)
    ensures Along(g, base, weight, order).Some?
    ensures u in Along(g, base, weight, order).value ==>
      && u in Along(g, base, weight, order + more).value
      && Along(g, base, weight, order + more).value[u] == Along(g, base, weight, order).value[u]
  {
    if more == [] {
      assert order + more == order;
    } else {
      var init, v := more[..|more| - 1], more[|more| - 1];
      assert (order + more)[..|order + more| - 1] == order + init && (order + more)[|order + more| - 1] == v;
      AlongLast(g, base, weight, order + more);
      AlongKeeps(g, base, weight, order, init, u);
      if u in Along(g, base, weight, order).value {
        ExtendKeeps(g, weight, Along(g, base, weight, order + init).value, v, u);
      }
    }
  }

  lemma {:induction false} NoneStays(g: TopoSort.Cfg, base: real, weight: map<Edge, real>, order: seq<nat>,
                                     more: seq<nat>)
    requires Along(g, base, weight, order).None?
    ensures Along(g, base, weight, order + more).None?
  {
    if more == [] {
      assert order + more == order;
    } else {
      NoneStays(g, base, weight, order, more[..|more| - 1]);
      assert (order + more)[..|order + more| - 1] == order + more[..|more| - 1];
    }
  }

  /** Left-over nodes do not change the entries of the others. */
  lemma {:induction false} KeepsPlaced(g: TopoSort.Cfg, base: real, weight: map<Edge, real>, placed: seq<nat>,
                                       all: seq<nat>, u: nat)
    requires Placement(g, placed) && Completion(g, placed, all) && u in placed
    requires Along(g, base, weight, all).Some?
    ensures Along(g, base, weight, placed).Some?
    ensures u in Along(g, base, weight, placed).value ==>
      && u in Along(g, base, weight, all).value
      && Along(g, base, weight, all).value[u] == Along(g, base, weight, placed).value[u]
  {
    var more := all[|placed|..];
    assert all == placed + more;
    forall k | 0 <= k < |more| ensures !LeadsTo(g, more[k], u) {
      assert more[k] == all[|placed| + k];
      LeadsElsewhere(g, placed, all, |placed| + k, u);
    }
    AlongKeeps(g, base, weight, placed, more, u);
  }

  lemma {:induction false} LeadsElsewhere(g: TopoSort.Cfg, placed: seq<nat>, all: seq<nat>, k: nat, u: nat)
    requires Placement(g, placed) && Completion(g, placed, all) && |placed| <= k < |all| && u in placed
    ensures forall e :: e in g.succ && e.src == all[k] ==> g.succ[e] != u
  {
    NotPlaced(g, placed, all, k);
    forall e | e in g.succ && e.src == all[k] ensures g.succ[e] != u {
      SourcePlaced(g, placed, e);
    }
  }

  lemma {:induction false} NotPlaced(g: TopoSort.Cfg, placed: seq<nat>, all: seq<nat>, k: nat)
    requires Completion(g, placed, all) && |placed| <= k < |all|
    ensures all[k] !in placed
  {
    assert forall j :: 0 <= j < |placed| ==> all[j] == placed[j];
  }

  lemma {:induction false} SourcePlaced(g: TopoSort.Cfg, placed: seq<nat>, e: Edge)
    requires TopoSort.Topological(g, placed) && e in g.succ
    ensures g.succ[e] in placed ==> e.src in placed
  {
    if g.succ[e] in placed {
      var i :| 0 <= i < |placed| && placed[i] == g.succ[e];
      assert e.src in placed[..i];
    }
  }

  /** A branch to two blocks that jump to each other, beside the block that jumps out of the listing: in one order
  the second of them comes before its entry. */
  lemma {:induction false} LoopBeside(g: TopoSort.Cfg, base: real, weight: map<Edge, real>)
    requires g.nodes == {0, 1, 2, 3, 4} && g.start == 0 && g.fin == 4
    requires g.succ == map[Edge(0, true) := 2, Edge(0, false) := 1, Edge(1, true) := 4, Edge(2, true) := 3,
                           Edge(3, true) := 2]
    ensures Placement(g, [0, 1, 4]) && !Independent(g, [0, 1, 4])
    ensures Along(g, base, weight, [0, 1, 4, 2, 3]).Some? && Along(g, base, weight, [0, 1, 4, 3, 2]).None?
  {
    assert Edge(0, false) in g.succ && Edge(1, true) in g.succ;
    assert [0, 1, 4][..1] == [0] && [0, 1, 4][..2] == [0, 1];
    assert HasPred(g, 1) && HasPred(g, 4);
    assert !Entered(g, [0, 1, 4], 3) && Leaves(g, 3);
    var good, bad := [0, 1, 4, 2, 3], [0, 1, 4, 3, 2];
    forall k: nat ensures Supplied(g, good, k) {
      GoodOrder(g, k);
    }
    AlongDefined(g, base, weight, good);
    assert bad[..3] == [0, 1, 4] && !Supplied(g, bad, 3);
    AlongDefined(g, base, weight, bad);
  }

  lemma {:induction false} GoodOrder(g: TopoSort.Cfg, k: nat)
    requires g.start == 0
    requires g.succ == map[Edge(0, true) := 2, Edge(0, false) := 1, Edge(1, true) := 4, Edge(2, true) := 3,
                           Edge(3, true) := 2]
    ensures Supplied(g, [0, 1, 4, 2, 3], k)
  {
    var good := [0, 1, 4, 2, 3];
    if 0 < k < 5 {
      var e := if k == 1 then Edge(0, false) else if k == 2 then Edge(1, true) else if k == 3 then Edge(0, true)
               else Edge(2, true);
      assert e in g.succ && g.succ[e] == good[k];
      assert good[..k][if k == 2 then 1 else if k == 4 then 3 else 0] == e.src;
    }
  }
}
