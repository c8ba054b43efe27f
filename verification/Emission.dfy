/** The order in which a search that always takes the largest front brings out the paths, for a ranking that need
not be one by edges: each edge passes on what comes out at its source, first in first out, and a node takes the
front that ranks highest behind its edge (`q_with_longest_path`). */
module Emission {
  import opened Dag
  import opened Wrappers

  /** How many of the paths of `out` came over `e`. */
  function Taken(out: seq<Trace>, e: Edge): nat {
    if |out| == 0 then 0
    else Taken(out[..|out| - 1], e) + if Over(out[|out| - 1], e) then 1 else 0
  }

  predicate Over(t: Trace, e: Edge) { t != [] && t[|t| - 1] == e }

  /** Over `e` something is yet to come to `v`, when `done` has come out there. */
  predicate Waits(g: Graph, outs: seq<seq<Trace>>, done: seq<Trace>, v: nat, e: Edge) {
    e in g.succ && g.succ[e] == v && e.src < |outs| && Taken(done, e) < |outs[e.src]|
  }

  /** What comes next over `e`. */
  function Front(g: Graph, outs: seq<seq<Trace>>, done: seq<Trace>, v: nat, e: Edge): Trace
    requires Waits(g, outs, done, v, e)
  {
    outs[e.src][Taken(done, e)] + [e]
  }

  /** `t` is a front of `v`, and none ranks higher. */
  ghost predicate Next(g: Graph, rank: Trace -> real, outs: seq<seq<Trace>>, done: seq<Trace>, v: nat, t: Trace) {
    && (exists e :: Waits(g, outs, done, v, e) && t == Front(g, outs, done, v, e))
    && (forall e :: Waits(g, outs, done, v, e) ==> rank(Front(g, outs, done, v, e)) <= rank(t))
  }

  ghost predicate Taking(g: Graph, rank: Trace -> real, outs: seq<seq<Trace>>, v: nat, out: seq<Trace>) {
    forall x {:trigger out[x]} :: 0 <= x < |out| ==> Next(g, rank, outs, out[..x], v, out[x])
  }

  ghost predicate Drained(g: Graph, rank: Trace -> real, outs: seq<seq<Trace>>, v: nat)
    requires v < |outs|
  {
    Taking(g, rank, outs, v, outs[v]) && forall e :: !Waits(g, outs, outs[v], v, e)
  }

  /** `outs[v]` is the order in which the paths to `v` come out. */
  ghost predicate Emitted(g: Graph, rank: Trace -> real, outs: seq<seq<Trace>>) {
    && |outs| == g.size > 0 && outs[0] == [[]]
    && forall v :: 0 < v < g.size ==> Drained(g, rank, outs, v)
  }

  lemma {:induction false} TakenMore(out: seq<Trace>, e: Edge, x: nat, y: nat)
    requires x <= y <= |out|
    ensures Taken(out[..x], e) <= Taken(out[..y], e)
    ensures x < y && Over(out[x], e) ==> Taken(out[..x], e) < Taken(out[..y], e)
    decreases y
  {
    if x < y {
      assert out[..y][..y - 1] == out[..y - 1];
      TakenMore(out, e, x, y - 1);
    }
  }

  /** The place at which number `k` of the paths over `e` comes out. */
  lemma {:induction false} Place(out: seq<Trace>, e: Edge, k: nat) returns (x: nat)
    requires k < Taken(out, e)
    ensures x < |out| && Over(out[x], e) && Taken(out[..x], e) == k
    decreases |out|
  {
    var q := out[..|out| - 1];
    if k < Taken(q, e) {
      x := Place(q, e, k);
      assert out[..x] == q[..x];
    } else {
      x := |out| - 1;
    }
  }

  lemma {:induction false} OverFront(g: Graph, rank: Trace -> real, outs: seq<seq<Trace>>, done: seq<Trace>, v: nat,
                                     t: Trace, e: Edge)
    requires Next(g, rank, outs, done, v, t) && Over(t, e)
    ensures Waits(g, outs, done, v, e) && t == Front(g, outs, done, v, e)
  {
  }

  /** Everything that comes out at the source of an edge comes out behind it. */
  lemma {:induction false} PassedOn(g: Graph, rank: Trace -> real, outs: seq<seq<Trace>>, e: Edge, k: nat)
    returns (x: nat)
    requires g.Valid() && Emitted(g, rank, outs) && e in g.succ && k < |outs[e.src]|
    ensures var out := outs[g.succ[e]]; x < |out| && out[x] == outs[e.src][k] + [e] && Taken(out[..x], e) == k
  {
    var v := g.succ[e];
    assert Drained(g, rank, outs, v);
    assert !Waits(g, outs, outs[v], v, e);
    x := Place(outs[v], e, k);
    OverFront(g, rank, outs, outs[v][..x], v, outs[v][x], e);
  }

  /** And in the same order. */
  lemma {:induction false} InTurn(g: Graph, rank: Trace -> real, outs: seq<seq<Trace>>, e: Edge, j: nat, k: nat)
    returns (x: nat, y: nat)
    requires g.Valid() && Emitted(g, rank, outs) && e in g.succ && j < k < |outs[e.src]|
    ensures var out := outs[g.succ[e]];
      x < y < |out| && out[x] == outs[e.src][j] + [e] && out[y] == outs[e.src][k] + [e]
  {
    x := PassedOn(g, rank, outs, e, j);
    y := PassedOn(g, rank, outs, e, k);
    if y <= x {
      TakenMore(outs[g.succ[e]], e, y, x);
    }
  }

  /** All paths come out. */
  lemma {:induction false} AllOut(g: Graph, rank: Trace -> real, outs: seq<seq<Trace>>, t: Trace, v: nat)
    returns (x: nat)
    requires g.Valid() && Emitted(g, rank, outs) && Walk(g, t, v)
    ensures v < g.size && x < |outs[v]| && outs[v][x] == t
    decreases |t|
  {
    if t == [] {
      x := 0;
    } else {
      var e, q := t[|t| - 1], t[..|t| - 1];
      var k := AllOut(g, rank, outs, q, e.src);
      x := PassedOn(g, rank, outs, e, k);
      assert t == q + [e];
    }
  }

  /** And nothing else. */
  lemma {:induction false} OnlyWalks(g: Graph, rank: Trace -> real, outs: seq<seq<Trace>>, v: nat, x: nat)
    requires g.Valid() && Emitted(g, rank, outs) && v < g.size && x < |outs[v]|
    ensures Walk(g, outs[v][x], v)
    decreases v
  {
    if v > 0 {
      assert Drained(g, rank, outs, v);
      assert Next(g, rank, outs, outs[v][..x], v, outs[v][x]);
      var e :| Waits(g, outs, outs[v][..x], v, e) && outs[v][x] == Front(g, outs, outs[v][..x], v, e);
      var k := Taken(outs[v][..x], e);
      OnlyWalks(g, rank, outs, e.src, k);
      WalkExtend(g, outs[e.src][k], e);
    }
  }

  // When they come out in the order of the ranking.

  ghost predicate Falling(rank: Trace -> real, out: seq<Trace>) {
    forall x, y {:trigger out[x], out[y]} :: 0 <= x < y < |out| ==> rank(out[x]) >= rank(out[y])
  }

  ghost predicate AllFalling(g: Graph, rank: Trace -> real, outs: seq<seq<Trace>>) {
    |outs| == g.size && forall v :: 0 <= v < g.size ==> Falling(rank, outs[v])
  }

  /** Going on over an edge keeps the order of any two paths. */
  ghost predicate Steady(g: Graph, rank: Trace -> real) {
    forall e, t, u :: Comparable(g, e, t, u) && rank(t) >= rank(u) ==> rank(t + [e]) >= rank(u + [e])
  }

  /** Or does not reverse it, if one of them ranks higher. */
  ghost predicate Unreversed(g: Graph, rank: Trace -> real) {
    forall e, t, u :: Comparable(g, e, t, u) && rank(t) > rank(u) ==> rank(t + [e]) >= rank(u + [e])
  }

  predicate Comparable(g: Graph, e: Edge, t: Trace, u: Trace) {
    e in g.succ && Walk(g, t, e.src) && Walk(g, u, e.src)
  }

  lemma {:induction false} SteadyFalls(g: Graph, rank: Trace -> real, outs: seq<seq<Trace>>, v: nat)
    requires g.Valid() && Emitted(g, rank, outs) && Steady(g, rank) && v < g.size
    ensures Falling(rank, outs[v])
    decreases v
  {
    if v > 0 {
      var out := outs[v];
      assert Drained(g, rank, outs, v);
      forall x, y | 0 <= x < y < |out| ensures rank(out[x]) >= rank(out[y]) {
        SteadyPair(g, rank, outs, v, x, y);
      }
    }
  }

  lemma {:induction false} SteadyPair(g: Graph, rank: Trace -> real, outs: seq<seq<Trace>>, v: nat, x: nat, y: nat)
    requires g.Valid() && Emitted(g, rank, outs) && Steady(g, rank) && 0 < v < g.size && x < y < |outs[v]|
    ensures rank(outs[v][x]) >= rank(outs[v][y])
    decreases v, 0
  {
    assert Drained(g, rank, outs, v);
    var e, j, k := Fronts(g, rank, outs, v, x, y);
    if j < k {
      SteadyFalls(g, rank, outs, e.src);
      OnlyWalks(g, rank, outs, e.src, j);
      OnlyWalks(g, rank, outs, e.src, k);
      assert Comparable(g, e, outs[e.src][j], outs[e.src][k]);
    }
  }

  /** When number `x` is taken, over the edge of number `y` waits one from before it, or itself. */
  lemma {:induction false} Fronts(g: Graph, rank: Trace -> real, outs: seq<seq<Trace>>, v: nat, x: nat, y: nat)
    returns (e: Edge, j: nat, k: nat)
    requires v < |outs| && Drained(g, rank, outs, v) && x < y < |outs[v]|
    ensures e in g.succ && g.succ[e] == v && e.src < |outs| && j <= k < |outs[e.src]|
    ensures outs[v][y] == outs[e.src][k] + [e] && rank(outs[e.src][j] + [e]) <= rank(outs[v][x])
  {
    var out := outs[v];
    assert Next(g, rank, outs, out[..y], v, out[y]);
    e :| Waits(g, outs, out[..y], v, e) && out[y] == Front(g, outs, out[..y], v, e);
    j, k := Taken(out[..x], e), Taken(out[..y], e);
    TakenMore(out, e, x, y);
    FrontBelow(g, rank, outs, out[..x], v, out[x], e);
  }

  lemma {:induction false} FrontBelow(g: Graph, rank: Trace -> real, outs: seq<seq<Trace>>, done: seq<Trace>, v: nat,
                                      t: Trace, e: Edge)
    requires Next(g, rank, outs, done, v, t) && Waits(g, outs, done, v, e)
    ensures rank(Front(g, outs, done, v, e)) <= rank(t)
  {
  }

  lemma {:induction false} FallsUnreversed(g: Graph, rank: Trace -> real, outs: seq<seq<Trace>>, e: Edge, t: Trace,
                                           u: Trace)
    requires g.Valid() && Emitted(g, rank, outs) && AllFalling(g, rank, outs)
    requires Comparable(g, e, t, u) && rank(t) > rank(u)
    ensures rank(t + [e]) >= rank(u + [e])
  {
    var j := AllOut(g, rank, outs, t, e.src);
    var k := AllOut(g, rank, outs, u, e.src);
    assert Falling(rank, outs[e.src]);
    assert j < k;
    var x, y := InTurn(g, rank, outs, e, j, k);
    assert Falling(rank, outs[g.succ[e]]);
  }

  /** Whatever comes first among equals: the paths come out in falling order everywhere if going on keeps the order
  of paths, and only if it does not reverse the order of paths that rank differently. */
  lemma {:induction false} FallsWhen(g: Graph, rank: Trace -> real, outs: seq<seq<Trace>>)
    requires g.Valid() && Emitted(g, rank, outs)
    ensures Steady(g, rank) ==> AllFalling(g, rank, outs)
    ensures AllFalling(g, rank, outs) ==> Unreversed(g, rank)
  {
    if Steady(g, rank) {
      forall v | 0 <= v < g.size ensures Falling(rank, outs[v]) {
        SteadyFalls(g, rank, outs, v);
      }
    }
    if AllFalling(g, rank, outs) {
      forall e, t, u | Comparable(g, e, t, u) && rank(t) > rank(u) ensures rank(t + [e]) >= rank(u + [e]) {
        FallsUnreversed(g, rank, outs, e, t, u);
      }
    }
  }

  // Such an order is found by taking front after front.

  /** How much is yet to come over the edges `es`. */
  function Rest(outs: seq<seq<Trace>>, done: seq<Trace>, es: seq<Edge>): nat {
    if |es| == 0 then 0
    else
      var e := es[|es| - 1];
      Rest(outs, done, es[..|es| - 1])
      + if e.src < |outs| && Taken(done, e) < |outs[e.src]| then |outs[e.src]| - Taken(done, e) else 0
  }

  lemma {:induction false} RestLess(outs: seq<seq<Trace>>, done: seq<Trace>, es: seq<Edge>, t: Trace)
    ensures Rest(outs, done + [t], es) <= Rest(outs, done, es)
    ensures forall e :: e in es && Over(t, e) && e.src < |outs| && Taken(done, e) < |outs[e.src]| ==>
              Rest(outs, done + [t], es) < Rest(outs, done, es)
    decreases |es|
  {
    if |es| > 0 {
      assert (done + [t])[..|done|] == done;
      RestLess(outs, done, es[..|es| - 1], t);
    }
  }

  method Emit(g: Graph, rank: Trace -> real) returns (outs: seq<seq<Trace>>)
    requires g.Valid()
    ensures Emitted(g, rank, outs)
  {
    outs := [[[]]];
    for v := 1 to g.size
      invariant |outs| == v && outs[0] == [[]]
      invariant forall w :: 0 < w < v ==> Drained(g, rank, outs, w)
    {
      var out := EmitNode(g, rank, outs, v);
      Appended(g, rank, outs, out, v);
      outs := outs + [out];
    }
  }

  lemma {:induction false} Appended(g: Graph, rank: Trace -> real, outs: seq<seq<Trace>>, out: seq<Trace>, v: nat)
    requires g.Valid() && |outs| == v && forall w :: 0 < w < v ==> Drained(g, rank, outs, w)
    requires Taking(g, rank, outs, v, out) && forall e :: !Waits(g, outs, out, v, e)
    ensures forall w :: 0 < w < v + 1 ==> Drained(g, rank, outs + [out], w)
  {
    forall w | 0 < w < v + 1 ensures Drained(g, rank, outs + [out], w) {
      if w < v {
        assert Drained(g, rank, outs, w);
        SameTaking(g, rank, outs, out, w, outs[w]);
      } else {
        SameTaking(g, rank, outs, out, v, out);
      }
    }
  }

  lemma {:induction false} SameWaits(g: Graph, outs: seq<seq<Trace>>, out: seq<Trace>, done: seq<Trace>, w: nat,
                                     e: Edge)
    requires g.Valid() && w <= |outs|
    ensures Waits(g, outs + [out], done, w, e) <==> Waits(g, outs, done, w, e)
    ensures Waits(g, outs, done, w, e) ==> Front(g, outs + [out], done, w, e) == Front(g, outs, done, w, e)
  {
  }

  lemma {:induction false} SameTaking(g: Graph, rank: Trace -> real, outs: seq<seq<Trace>>, out: seq<Trace>, w: nat,
                                      o: seq<Trace>)
    requires g.Valid() && w <= |outs| && Taking(g, rank, outs, w, o) && forall e :: !Waits(g, outs, o, w, e)
    ensures Taking(g, rank, outs + [out], w, o) && forall e :: !Waits(g, outs + [out], o, w, e)
  {
    forall e ensures !Waits(g, outs + [out], o, w, e) {
      SameWaits(g, outs, out, o, w, e);
    }
    forall x | 0 <= x < |o| ensures Next(g, rank, outs + [out], o[..x], w, o[x]) {
      assert Next(g, rank, outs, o[..x], w, o[x]);
      SameNext(g, rank, outs, out, o[..x], w, o[x]);
    }
  }

  lemma {:induction false} SameNext(g: Graph, rank: Trace -> real, outs: seq<seq<Trace>>, out: seq<Trace>,
                                    done: seq<Trace>, w: nat, t: Trace)
    requires g.Valid() && w <= |outs| && Next(g, rank, outs, done, w, t)
    ensures Next(g, rank, outs + [out], done, w, t)
  {
    forall e ensures Waits(g, outs + [out], done, w, e) <==> Waits(g, outs, done, w, e)
             ensures Waits(g, outs, done, w, e) ==> Front(g, outs + [out], done, w, e) == Front(g, outs, done, w, e) {
      SameWaits(g, outs, out, done, w, e);
    }
  }

  method EmitNode(g: Graph, rank: Trace -> real, outs: seq<seq<Trace>>, v: nat) returns (out: seq<Trace>)
    requires g.Valid() && |outs| == v < g.size
    ensures Taking(g, rank, outs, v, out) && forall e :: !Waits(g, outs, out, v, e)
  {
    out := [];
    var m := Largest(g, rank, outs, out, v);
    while m.Some?
      invariant Taking(g, rank, outs, v, out)
      invariant m.Some? ==> Waits(g, outs, out, v, m.value)
      invariant m.Some? ==> Next(g, rank, outs, out, v, Front(g, outs, out, v, m.value))
      invariant m.None? ==> forall e :: !Waits(g, outs, out, v, e)
      decreases Rest(outs, out, g.preds[v])
    {
      var t := Front(g, outs, out, v, m.value);
      RestLess(outs, out, g.preds[v], t);
      TakingMore(g, rank, outs, v, out, t);
      out := out + [t];
      m := Largest(g, rank, outs, out, v);
    }
  }

  lemma {:induction false} TakingMore(g: Graph, rank: Trace -> real, outs: seq<seq<Trace>>, v: nat, out: seq<Trace>,
                                      t: Trace)
    requires Taking(g, rank, outs, v, out) && Next(g, rank, outs, out, v, t)
    ensures Taking(g, rank, outs, v, out + [t])
  {
    forall x | 0 <= x < |out| + 1 ensures Next(g, rank, outs, (out + [t])[..x], v, (out + [t])[x]) {
      if x < |out| {
        assert Next(g, rank, outs, out[..x], v, out[x]);
        assert (out + [t])[..x] == out[..x];
      } else {
        assert (out + [t])[..x] == out;
      }
    }
  }

  /** A largest front. */
  method Largest(g: Graph, rank: Trace -> real, outs: seq<seq<Trace>>, done: seq<Trace>, v: nat)
    returns (m: Option<Edge>)
    requires g.Valid() && |outs| == v < g.size
    ensures m.None? ==> forall e :: !Waits(g, outs, done, v, e)
    ensures m.Some? ==> m.value in g.preds[v] && Waits(g, outs, done, v, m.value)
    ensures m.Some? ==> Next(g, rank, outs, done, v, Front(g, outs, done, v, m.value))
  {
    m := None;
    var es := g.preds[v];
    for i := 0 to |es|
      invariant m.None? ==> forall e :: e in es[..i] ==> !Waits(g, outs, done, v, e)
      invariant m.Some? ==> m.value in es && Waits(g, outs, done, v, m.value)
      invariant m.Some? ==> Highest(g, rank, outs, done, v, m.value, es[..i])
    {
      if Waits(g, outs, done, v, es[i])
         && (m.None? || rank(Front(g, outs, done, v, m.value)) < rank(Front(g, outs, done, v, es[i]))) {
        m := Some(es[i]);
      }
    }
  }

  ghost predicate Highest(g: Graph, rank: Trace -> real, outs: seq<seq<Trace>>, done: seq<Trace>, v: nat, m: Edge,
                          es: seq<Edge>)
    requires Waits(g, outs, done, v, m)
  {
    forall e :: e in es && Waits(g, outs, done, v, e) ==>
      rank(Front(g, outs, done, v, e)) <= rank(Front(g, outs, done, v, m))
  }
}
