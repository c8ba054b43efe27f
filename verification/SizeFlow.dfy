/** `cfg::propagate_sizes`: which packet sizes each edge has to keep a queue for. */
module SizeFlow {
  import opened Dag
  import opened Sizes

  /** The graph and the `min_packetsize` of each edge. */
  datatype Flow = Flow(g: Graph, least: map<Edge, nat>) {
    ghost predicate Valid() {
      g.Valid() && least.Keys == g.succ.Keys
    }
  }

  // What the two passes compute, edge by edge.

  /** The first pass, backwards: the sizes that `e` or a later edge introduces. */
  ghost function Later(f: Flow, e: Edge): set<nat>
    requires f.Valid() && e in f.g.succ
    decreases f.g.size - f.g.succ[e], 1
  {
    AtLeast(After(f, f.g.succ[e], f.g.succ.Keys), f.least[e]) + {f.least[e]}
  }

  /** The sizes of those outgoing edges of `v` that are in `done`. */
  ghost function After(f: Flow, v: nat, done: set<Edge>): set<nat>
    requires f.Valid() && v < f.g.size && done <= f.g.succ.Keys
    decreases f.g.size - v, 0
  {
    (if Edge(v, true) in done then Later(f, Edge(v, true)) else {})
    + (if Edge(v, false) in done then Later(f, Edge(v, false)) else {})
  }

  ghost predicate Into(f: Flow, es: seq<Edge>, v: nat) {
    forall i :: 0 <= i < |es| ==> es[i] in f.g.succ && f.g.succ[es[i]] == v
  }

  lemma {:induction false} PredsInto(f: Flow, v: nat)
    requires f.Valid() && v < f.g.size
    ensures Into(f, f.g.preds[v], v)
  {
    forall i | 0 <= i < |f.g.preds[v]| ensures f.g.preds[v][i] in f.g.succ && f.g.succ[f.g.preds[v][i]] == v {
      assert f.g.preds[v][i] in f.g.preds[v];
    }
  }

  /** The second pass, forwards: the sizes known to an outgoing edge of the start that no edge up to `e` exceeds. */
  ghost function Possible(f: Flow, e: Edge): set<nat>
    requires f.Valid() && e in f.g.succ
    decreases e.src, 1, 0
  {
    PredsInto(f, e.src);
    AtLeast(Offered(f, e) + PossibleOf(f, f.g.preds[e.src], e.src), f.least[e])
  }

  ghost function Offered(f: Flow, e: Edge): set<nat>
    requires f.Valid() && e in f.g.succ
  {
    if e.src == 0 then Later(f, e) else {}
  }

  ghost function PossibleOf(f: Flow, es: seq<Edge>, v: nat): set<nat>
    requires f.Valid() && Into(f, es, v)
    decreases v, 0, |es|
  {
    if es == [] then {} else PossibleOf(f, es[..|es| - 1], v) + Possible(f, es[|es| - 1])
  }

  /** The sizes that an edge up to `e` introduces and no edge in between exceeds. */
  ghost function Produced(f: Flow, e: Edge): set<nat>
    requires f.Valid() && e in f.g.succ
    decreases e.src, 1, 0
  {
    PredsInto(f, e.src);
    AtLeast(ProducedOf(f, f.g.preds[e.src], e.src), f.least[e]) + {f.least[e]}
  }

  ghost function ProducedOf(f: Flow, es: seq<Edge>, v: nat): set<nat>
    requires f.Valid() && Into(f, es, v)
    decreases v, 0, |es|
  {
    if es == [] then {} else ProducedOf(f, es[..|es| - 1], v) + Produced(f, es[|es| - 1])
  }

  ghost function Kept(f: Flow, e: Edge): set<nat>
    requires f.Valid() && e in f.g.succ
  {
    Later(f, e) * Possible(f, e) + Produced(f, e)
  }

  ghost function KeptOf(f: Flow, es: seq<Edge>, v: nat): set<nat>
    requires f.Valid() && Into(f, es, v)
  {
    if es == [] then {} else KeptOf(f, es[..|es| - 1], v) + Kept(f, es[|es| - 1])
  }

  lemma {:induction false} OfMember(f: Flow, es: seq<Edge>, v: nat, i: nat, s: nat)
    requires f.Valid() && Into(f, es, v) && i < |es|
    ensures s in Possible(f, es[i]) ==> s in PossibleOf(f, es, v)
    ensures s in Produced(f, es[i]) ==> s in ProducedOf(f, es, v)
    ensures s in Kept(f, es[i]) ==> s in KeptOf(f, es, v)
    decreases |es|
  {
    if i < |es| - 1 {
      OfMember(f, es[..|es| - 1], v, i, s);
    }
  }

  // Completeness: the packet size of a path is kept on each of its edges.

  /** `path::min_packetsize` of a path over the edges of `t`. */
  ghost function PacketSize(f: Flow, t: Trace): nat
    requires forall e :: e in t ==> e in f.least
  {
    if t == [] then 0
    else
      var m, n := PacketSize(f, t[..|t| - 1]), f.least[t[|t| - 1]];
      if m < n then n else m
  }

  lemma {:induction false} PacketSizeLargest(f: Flow, t: Trace)
    requires t != [] && forall e :: e in t ==> e in f.least
    ensures forall i :: 0 <= i < |t| ==> f.least[t[i]] <= PacketSize(f, t)
    ensures exists j :: 0 <= j < |t| && f.least[t[j]] == PacketSize(f, t)
  {
    if |t| > 1 {
      var q := t[..|t| - 1];
      assert forall e :: e in q ==> e in t;
      PacketSizeLargest(f, q);
      var j :| 0 <= j < |q| && f.least[q[j]] == PacketSize(f, q);
      assert f.least[t[j]] == PacketSize(f, q);
    }
    assert f.least[t[|t| - 1]] <= PacketSize(f, t);
  }

  /** Edges in a row. */
  ghost predicate Joined(f: Flow, t: Trace) {
    && (forall i :: 0 <= i < |t| ==> t[i] in f.g.succ && t[i] in f.least)
    && (forall i, j :: 0 <= i && j == i + 1 && j < |t| ==> f.g.succ[t[i]] == t[j].src)
  }

  /** The edges of a walk in a row. */
  ghost predicate Linked(f: Flow, t: Trace) {
    Joined(f, t) && (t != [] ==> t[0].src == 0)
  }

  lemma {:induction false} WalkLinked(f: Flow, t: Trace, v: nat)
    requires f.Valid() && Walk(f.g, t, v)
    ensures Linked(f, t) && (t != [] ==> f.g.succ[t[|t| - 1]] == v)
  {
    if t != [] {
      WalkLinked(f, t[..|t| - 1], t[|t| - 1].src);
    }
  }

  lemma {:induction false} KnownBefore(f: Flow, t: Trace, i: nat, j: nat, s: nat)
    requires f.Valid() && Linked(f, t) && i <= j < |t|
    requires s == f.least[t[j]] && forall k :: i <= k <= j ==> f.least[t[k]] <= s
    ensures s in Later(f, t[i])
    decreases j - i
  {
    if i < j {
      KnownBefore(f, t, i + 1, j, s);
      assert f.g.succ[t[i]] == t[i + 1].src;
    }
  }

  lemma {:induction false} PossibleAlong(f: Flow, t: Trace, i: nat, s: nat)
    requires f.Valid() && Linked(f, t) && i < |t|
    requires s in Later(f, t[0]) && forall k :: 0 <= k <= i ==> f.least[t[k]] <= s
    ensures s in Possible(f, t[i])
  {
    if i > 0 {
      PossibleAlong(f, t, i - 1, s);
      var p, v := t[i - 1], t[i].src;
      assert f.g.succ[p] == v && p in f.g.preds[v];
      var k :| 0 <= k < |f.g.preds[v]| && f.g.preds[v][k] == p;
      PredsInto(f, v);
      OfMember(f, f.g.preds[v], v, k, s);
    }
  }

  lemma {:induction false} ProducedAlong(f: Flow, t: Trace, j: nat, i: nat, s: nat)
    requires f.Valid() && Joined(f, t) && j <= i < |t|
    requires s == f.least[t[j]] && forall k :: j <= k <= i ==> f.least[t[k]] <= s
    ensures s in Produced(f, t[i])
  {
    if i > j {
      ProducedAlong(f, t, j, i - 1, s);
      var p, v := t[i - 1], t[i].src;
      assert f.g.succ[p] == v && p in f.g.preds[v];
      var k :| 0 <= k < |f.g.preds[v]| && f.g.preds[v][k] == p;
      PredsInto(f, v);
      OfMember(f, f.g.preds[v], v, k, s);
    }
  }

  /** No path loses its own size: every edge it takes keeps that size. */
  lemma {:induction false} PathKept(f: Flow, t: Trace, v: nat, i: nat)
    requires f.Valid() && Walk(f.g, t, v) && i < |t|
    ensures Linked(f, t) && PacketSize(f, t) in Kept(f, t[i])
  {
    WalkLinked(f, t, v);
    PacketSizeLargest(f, t);
    var s := PacketSize(f, t);
    var j :| 0 <= j < |t| && f.least[t[j]] == s;
    if i <= j {
      KnownBefore(f, t, i, j, s);
      KnownBefore(f, t, 0, j, s);
      PossibleAlong(f, t, i, s);
    } else {
      ProducedAlong(f, t, j, i, s);
    }
  }

  /** The size of every complete path is in the set returned for the last node. */
  lemma {:induction false} PathReturned(f: Flow, t: Trace)
    requires f.Valid() && Walk(f.g, t, f.g.fin)
    ensures Linked(f, t) && Into(f, f.g.preds[f.g.fin], f.g.fin)
    ensures PacketSize(f, t) in KeptOf(f, f.g.preds[f.g.fin], f.g.fin)
  {
    PredsInto(f, f.g.fin);
    WalkLinked(f, t, f.g.fin);
    PathKept(f, t, f.g.fin, |t| - 1);
    var e := t[|t| - 1];
    assert e in f.g.preds[f.g.fin];
    var k :| 0 <= k < |f.g.preds[f.g.fin]| && f.g.preds[f.g.fin][k] == e;
    OfMember(f, f.g.preds[f.g.fin], f.g.fin, k, PacketSize(f, t));
  }

  // Exactness: what else is kept.

  /** The largest `min_packetsize` of these edges is `s`. */
  ghost predicate SizeIs(f: Flow, t: Trace, s: nat) {
    t != [] && (forall e :: e in t ==> e in f.least) && PacketSize(f, t) == s
  }

  /** A walk over `e` whose last edge makes it a path of size `s`. */
  ghost predicate Ahead(f: Flow, t: Trace, e: Edge, s: nat) {
    Linked(f, t) && e in t && SizeIs(f, t, s) && f.least[t[|t| - 1]] == s
  }

  /** Edges that end in `e`, of which none exceeds the size `s` of the first. */
  ghost predicate Behind(f: Flow, t: Trace, e: Edge, s: nat) {
    Joined(f, t) && SizeIs(f, t, s) && t[|t| - 1] == e && f.least[t[0]] == s
  }

  ghost predicate Needed(f: Flow, e: Edge, s: nat) {
    (exists t :: Ahead(f, t, e, s)) || (exists t :: Behind(f, t, e, s))
  }

  ghost predicate Under(f: Flow, t: Trace, s: nat) {
    Joined(f, t) && t != [] && forall i :: 0 <= i < |t| ==> f.least[t[i]] <= s
  }

  lemma {:induction false} UnderSize(f: Flow, t: Trace, i: nat, s: nat)
    requires Under(f, t, s) && i < |t| && f.least[t[i]] == s
    ensures SizeIs(f, t, s)
  {
    PacketSizeLargest(f, t);
  }

  lemma {:induction false} SizeUnder(f: Flow, t: Trace, s: nat)
    requires Joined(f, t) && SizeIs(f, t, s)
    ensures Under(f, t, s)
  {
    PacketSizeLargest(f, t);
  }

  lemma {:induction false} LaterPath(f: Flow, e: Edge, s: nat) returns (t: Trace)
    requires f.Valid() && e in f.g.succ && s in Later(f, e)
    ensures Under(f, t, s) && t[0] == e && f.least[t[|t| - 1]] == s
    decreases f.g.size - f.g.succ[e]
  {
    t := [e];
    if s != f.least[e] {
      var v := f.g.succ[e];
      var n := if Edge(v, true) in f.g.succ && s in Later(f, Edge(v, true)) then Edge(v, true) else Edge(v, false);
      var r := LaterPath(f, n, s);
      t := [e] + r;
    }
  }

  /** Where a size comes from that the edges into `v` have. */
  lemma {:induction false} PossibleSource(f: Flow, es: seq<Edge>, v: nat, s: nat) returns (p: Edge)
    requires f.Valid() && Into(f, es, v) && s in PossibleOf(f, es, v)
    ensures p in f.g.succ && f.g.succ[p] == v && s in Possible(f, p)
    decreases |es|
  {
    p := es[|es| - 1];
    if s !in Possible(f, p) {
      p := PossibleSource(f, es[..|es| - 1], v, s);
    }
  }

  lemma {:induction false} ProducedSource(f: Flow, es: seq<Edge>, v: nat, s: nat) returns (p: Edge)
    requires f.Valid() && Into(f, es, v) && s in ProducedOf(f, es, v)
    ensures p in f.g.succ && f.g.succ[p] == v && s in Produced(f, p)
    decreases |es|
  {
    p := es[|es| - 1];
    if s !in Produced(f, p) {
      p := ProducedSource(f, es[..|es| - 1], v, s);
    }
  }

  lemma {:induction false} PossiblePath(f: Flow, e: Edge, s: nat) returns (t: Trace)
    requires f.Valid() && e in f.g.succ && s in Possible(f, e)
    ensures Under(f, t, s) && Linked(f, t) && t[|t| - 1] == e
    decreases e.src
  {
    t := [e];
    if e.src != 0 {
      PredsInto(f, e.src);
      var p := PossibleSource(f, f.g.preds[e.src], e.src, s);
      var r := PossiblePath(f, p, s);
      t := r + [e];
    }
  }

  lemma {:induction false} ProducedPath(f: Flow, e: Edge, s: nat) returns (t: Trace)
    requires f.Valid() && e in f.g.succ && s in Produced(f, e)
    ensures Behind(f, t, e, s)
    decreases e.src
  {
    t := [e];
    if s != f.least[e] {
      PredsInto(f, e.src);
      var p := ProducedSource(f, f.g.preds[e.src], e.src, s);
      var r := ProducedPath(f, p, s);
      SizeUnder(f, r, s);
      t := r + [e];
    }
    UnderSize(f, t, 0, s);
  }

  lemma {:induction false} AheadPath(f: Flow, e: Edge, s: nat) returns (t: Trace)
    requires f.Valid() && e in f.g.succ && s in Later(f, e) && s in Possible(f, e)
    ensures Ahead(f, t, e, s)
  {
    var a := PossiblePath(f, e, s);
    var b := LaterPath(f, e, s);
    t := a + b[1..];
    assert t[|a| - 1] == e;
    UnderSize(f, t, |t| - 1, s);
  }

  lemma {:induction false} AheadKept(f: Flow, t: Trace, e: Edge, s: nat)
    requires f.Valid() && Ahead(f, t, e, s)
    ensures e in f.g.succ && s in Later(f, e) && s in Possible(f, e)
  {
    SizeUnder(f, t, s);
    var i :| 0 <= i < |t| && t[i] == e;
    KnownBefore(f, t, i, |t| - 1, s);
    KnownBefore(f, t, 0, |t| - 1, s);
    PossibleAlong(f, t, i, s);
  }

  /** An edge keeps exactly the sizes of the walks over it up to the edge that introduces the size, and the sizes
  introduced before it and not exceeded on the way to it. */
  lemma {:induction false} KeptExact(f: Flow, e: Edge, s: nat)
    requires f.Valid() && e in f.g.succ
    ensures s in Kept(f, e) <==> Needed(f, e, s)
  {
    if s in Produced(f, e) {
      var t := ProducedPath(f, e, s);
    } else if s in Kept(f, e) {
      var t := AheadPath(f, e, s);
    }
    forall t | Ahead(f, t, e, s) ensures s in Kept(f, e) {
      AheadKept(f, t, e, s);
    }
    forall t | Behind(f, t, e, s) ensures s in Kept(f, e) {
      SizeUnder(f, t, s);
      ProducedAlong(f, t, 0, |t| - 1, s);
    }
  }

  /** What is returned is what the edges into the last node keep. */
  lemma {:induction false} ReturnedExact(f: Flow, es: seq<Edge>, v: nat, s: nat)
    requires f.Valid() && Into(f, es, v)
    ensures s in KeptOf(f, es, v) <==> exists e :: e in es && Needed(f, e, s)
    decreases |es|
  {
    if es != [] {
      var l := es[|es| - 1];
      ReturnedExact(f, es[..|es| - 1], v, s);
      KeptExact(f, l, s);
      assert es == es[..|es| - 1] + [l];
    }
  }
}
