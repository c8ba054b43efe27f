/** The invariant of the lazily filled path streams.

Every node has one stream of partial paths, ordered by rank. Each outgoing edge reads
that stream through its own cursor, and `wait` holds what the cursor has not read yet.
This module says when such cursors are consistent and proves that reading the best path
offered to a node, extending it and appending it to the stream of that node keeps them so. */
module Streams {
  import opened Dag

  datatype Value = NegInf | Finite(r: real) | PosInf

  predicate AtMost(a: Value, b: Value) {
    a.NegInf? || b.PosInf? || (a.Finite? && b.Finite? && a.r <= b.r)
  }

  function Plus(a: Value, w: real): Value {
    if a.Finite? then Finite(a.r + w) else a
  }

  /** Some prefix of `t` has been found unsatisfiable. */
  predicate Declared(declared: set<Trace>, t: Trace) {
    exists i :: 0 <= i <= |t| && t[..i] in declared
  }

  lemma {:induction false} DeclaredExtend(declared: set<Trace>, t: Trace, e: Edge)
    requires Declared(declared, t)
    ensures Declared(declared, t + [e])
  {
    var i :| 0 <= i <= |t| && t[..i] in declared;
    assert (t + [e])[..i] == t[..i];
  }

  /** Name of the cursor that reads the stream of the final node. */
  function Output(g: Graph): Edge { Edge(g.fin, true) }

  function Cursors(g: Graph): set<Edge> { g.succ.Keys + {Output(g)} }

  /** wait: what each cursor still has to read; for the output this is everything emitted so far.
      kept: the paths that ever entered a node's stream.
      bound: the rank of the newest path of a node's stream.
      declared: the prefixes found unsatisfiable. */
  datatype State = State(
    wait: map<Edge, set<Trace>>, kept: map<nat, set<Trace>>, bound: map<nat, Value>, declared: set<Trace>)
  {
    function Wait(e: Edge): set<Trace> { if e in wait then wait[e] else {} }
    function Kept(v: nat): set<Trace> { if v in kept then kept[v] else {} }
    function Bound(v: nat): Value { if v in bound then bound[v] else PosInf }
  }

  function Last(t: Trace): Edge requires t != [] { t[|t| - 1] }

  function Init(t: Trace): Trace requires t != [] { t[..|t| - 1] }

  /** What is in the stream of `v` got there over an edge that has read it. */
  ghost predicate InvKept(g: Graph, s: State, v: nat, t: Trace)
  {
    t in s.Kept(v) ==>
      && Walk(g, t, v)
      && (t != [] ==> Last(t) in g.succ && Init(t) in s.Kept(Last(t).src) && Init(t) !in s.Wait(Last(t)))
  }

  /** What an edge has read is in the stream of its target, unless it was dropped as unsatisfiable. */
  ghost predicate InvRead(g: Graph, keep: bool, s: State, e: Edge, t: Trace)
    requires e in g.succ
  {
    t in s.Kept(e.src) ==>
      t in s.Wait(e) || t + [e] in s.Kept(g.succ[e]) || (!keep && Declared(s.declared, t + [e]))
  }

  /** A walk that is missing from the stream of `v` is unsatisfiable or ranks below the stream;
  a stream that is exhausted misses nothing else. */
  ghost predicate InvMissing(g: Graph, keep: bool, s: State, v: nat, t: Trace)
  {
    Walk(g, t, v) && t !in s.Kept(v) ==>
      if s.Bound(v) == NegInf then !keep && Declared(s.declared, t)
      else Declared(s.declared, t) || AtMost(Finite(Cost(g, t)), s.Bound(v))
  }

  /** A cursor waits for paths of its node, streams only descend along an edge, and the output
  holds all that the final node has produced. */
  ghost predicate InvCursor(g: Graph, s: State, e: Edge) {
    && s.Wait(e) <= s.Kept(e.src)
    && (e in g.succ ==> AtMost(Plus(s.Bound(e.src), Weight(g, e)), s.Bound(g.succ[e])))
    && (e == Output(g) ==> s.Kept(e.src) == s.Wait(e))
  }

  ghost predicate Inv(g: Graph, keep: bool, s: State) {
    && g.Valid()
    && s.wait.Keys == Cursors(g)
    && s.Kept(0) == {[]} && s.Bound(0) == NegInf
    && (forall e {:trigger InvCursor(g, s, e)} :: e in Cursors(g) ==> InvCursor(g, s, e))
    && (forall v: nat, t :: InvKept(g, s, v, t))
    && (forall e, t :: e in g.succ ==> InvRead(g, keep, s, e, t))
    && (forall v: nat, t :: InvMissing(g, keep, s, v, t))
  }

  ghost predicate Extension(xs: set<Trace>, m: Edge, ys: set<Trace>) {
    && (forall t :: t in ys ==> t != [] && Last(t) == m && Init(t) in xs)
    && (forall t {:trigger t + [m]} :: t in xs ==> t + [m] in ys)
  }

  /** Reading the paths `xs` from `m` at rank `r` leaves nothing better behind on the edge `f`. */
  ghost predicate NoBetter(g: Graph, s: State, m: Edge, xs: set<Trace>, r: Value, f: Edge, t: Trace) {
    t in s.Wait(f) && !(f == m && t in xs) ==>
      r != NegInf && (Declared(s.declared, t) || AtMost(Finite(Cost(g, t) + Weight(g, f)), r))
  }

  /** The edge `m` may read the paths `xs`, which extended over `m` are `ys` of rank `r`: no
  incoming edge offers, or will offer, a better satisfiable path. */
  ghost predicate CanMove(g: Graph, keep: bool, s: State, m: Edge, xs: set<Trace>, ys: set<Trace>, r: Value,
                          drop: bool) {
    && Inv(g, keep, s)
    && m in g.succ
    && xs <= s.Wait(m)
    && Extension(xs, m, ys)
    && (drop ==> !keep && forall t :: t in ys ==> Declared(s.declared, t))
    && AtMost(r, s.Bound(g.succ[m]))
    && s.Bound(g.succ[m]) != NegInf && r != PosInf
    && (forall f :: f in g.succ && g.succ[f] == g.succ[m] ==> AtMost(Plus(s.Bound(f.src), Weight(g, f)), r))
    && (forall f, t :: f in g.succ && g.succ[f] == g.succ[m] ==> NoBetter(g, s, m, xs, r, f, t))
  }

  /** `s'` is `s` after that move; `drop` tells that the extension was thrown away. */
  ghost predicate Moved(g: Graph, s: State, m: Edge, xs: set<Trace>, ys: set<Trace>, r: Value, drop: bool, s': State)
    requires m in g.succ
  {
    var u := g.succ[m];
    && s'.wait.Keys == Cursors(g)
    && s'.declared == s.declared
    && s'.Wait(m) == s.Wait(m) - xs
    && s'.Kept(u) == (if drop then s.Kept(u) else s.Kept(u) + ys)
    && s'.Bound(u) == r
    && (forall v: nat :: v != u ==> s'.Kept(v) == s.Kept(v) && s'.Bound(v) == s.Bound(v))
    && (forall e :: e in Cursors(g) && e != m && e.src != u ==> s'.Wait(e) == s.Wait(e))
    && (forall e :: e in Cursors(g) && e.src == u ==> s'.Wait(e) == if drop then s.Wait(e) else s.Wait(e) + ys)
  }

  lemma {:induction false} MovedNew(g: Graph, keep: bool, s: State, m: Edge, xs: set<Trace>, ys: set<Trace>, t: Trace)
    requires Inv(g, keep, s) && m in g.succ && xs <= s.Wait(m) && Extension(xs, m, ys) && t in ys
    ensures t != [] && Last(t) == m && Init(t) in xs && Init(t) in s.Wait(m) && Init(t) in s.Kept(m.src)
    ensures Walk(g, t, g.succ[m]) && t !in s.Kept(g.succ[m])
  {
    assert t == Init(t) + [m];
    assert m in Cursors(g) && InvCursor(g, s, m);
    assert InvKept(g, s, m.src, Init(t));
    assert InvKept(g, s, g.succ[m], t);
    WalkExtend(g, Init(t), m);
  }

  lemma {:induction false} MovedKept(g: Graph, keep: bool, s: State, m: Edge, xs: set<Trace>, ys: set<Trace>,
                                     r: Value, drop: bool, s': State, v: nat, t: Trace)
    requires CanMove(g, keep, s, m, xs, ys, r, drop) && Moved(g, s, m, xs, ys, r, drop, s')
    ensures InvKept(g, s', v, t)
  {
    if t in s'.Kept(v) {
      if t in s.Kept(v) {
        assert InvKept(g, s, v, t);
        if t != [] && Init(t) in ys {
          MovedNew(g, keep, s, m, xs, ys, Init(t));
        }
      } else {
        MovedNew(g, keep, s, m, xs, ys, t);
      }
    }
  }

  lemma {:induction false} MovedRead(g: Graph, keep: bool, s: State, m: Edge, xs: set<Trace>, ys: set<Trace>,
                                     r: Value, drop: bool, s': State, e: Edge, t: Trace)
    requires CanMove(g, keep, s, m, xs, ys, r, drop) && Moved(g, s, m, xs, ys, r, drop, s') && e in g.succ
    ensures InvRead(g, keep, s', e, t)
  {
    assert InvRead(g, keep, s, e, t);
  }

  /** A walk `t` missing from the stream of `u` comes from a path its last edge has not read yet, or
  never will: either way it ranks below what was just read. */
  lemma {:induction false} StillMissing(g: Graph, keep: bool, s: State, s': State, f: Edge, p: Trace)
    requires f in g.succ && InvMissing(g, keep, s, f.src, p) && InvRead(g, keep, s', f, p)
    requires s'.declared == s.declared
    requires s'.Kept(f.src) == s.Kept(f.src)
    requires AtMost(Plus(s.Bound(f.src), Weight(g, f)), s'.Bound(g.succ[f]))
    requires p in s'.Wait(f) ==>
      if s'.Bound(g.succ[f]) == NegInf then false
      else Declared(s.declared, p) || AtMost(Finite(Cost(g, p) + Weight(g, f)), s'.Bound(g.succ[f]))
    requires Walk(g, p, f.src) && p + [f] !in s'.Kept(g.succ[f])
    ensures
      if s'.Bound(g.succ[f]) == NegInf then !keep && Declared(s.declared, p + [f])
      else Declared(s.declared, p + [f]) || AtMost(Finite(Cost(g, p + [f])), s'.Bound(g.succ[f]))
  {
    WalkExtend(g, p, f);
    if Declared(s.declared, p) {
      DeclaredExtend(s.declared, p, f);
    }
  }

  lemma {:induction false} MovedOffer(g: Graph, keep: bool, s: State, m: Edge, xs: set<Trace>, ys: set<Trace>,
                                      r: Value, drop: bool, s': State, f: Edge, p: Trace)
    requires CanMove(g, keep, s, m, xs, ys, r, drop) && Moved(g, s, m, xs, ys, r, drop, s')
    requires f in g.succ && g.succ[f] == g.succ[m]
    ensures s'.Kept(f.src) == s.Kept(f.src)
    ensures AtMost(Plus(s.Bound(f.src), Weight(g, f)), s'.Bound(g.succ[f]))
    ensures p in s'.Wait(f) ==>
      if s'.Bound(g.succ[f]) == NegInf then false
      else Declared(s.declared, p) || AtMost(Finite(Cost(g, p) + Weight(g, f)), s'.Bound(g.succ[f]))
  {
    assert f.src < g.succ[f];
    assert f in Cursors(g);
    assert NoBetter(g, s, m, xs, r, f, p);
  }

  lemma {:induction false} MovedMissing(g: Graph, keep: bool, s: State, m: Edge, xs: set<Trace>, ys: set<Trace>,
                                        r: Value, drop: bool, s': State, v: nat, t: Trace)
    requires CanMove(g, keep, s, m, xs, ys, r, drop) && Moved(g, s, m, xs, ys, r, drop, s')
    ensures InvMissing(g, keep, s', v, t)
  {
    assert InvMissing(g, keep, s, v, t);
    if v != g.succ[m] {
      assert s'.Kept(v) == s.Kept(v) && s'.Bound(v) == s.Bound(v);
    } else if Walk(g, t, v) && t !in s'.Kept(v) && t != [] {
      assert t == Init(t) + [Last(t)];
      MovedMissingAt(g, keep, s, m, xs, ys, r, drop, s', Last(t), Init(t));
    }
  }

  lemma {:induction false} MovedMissingAt(g: Graph, keep: bool, s: State, m: Edge, xs: set<Trace>,
                                          ys: set<Trace>, r: Value, drop: bool, s': State, f: Edge, p: Trace)
    requires CanMove(g, keep, s, m, xs, ys, r, drop) && Moved(g, s, m, xs, ys, r, drop, s')
    requires f in g.succ && g.succ[f] == g.succ[m] && Walk(g, p, f.src) && p + [f] !in s'.Kept(g.succ[f])
    ensures InvMissing(g, keep, s', g.succ[f], p + [f])
  {
    assert InvMissing(g, keep, s, f.src, p);
    MovedRead(g, keep, s, m, xs, ys, r, drop, s', f, p);
    MovedOffer(g, keep, s, m, xs, ys, r, drop, s', f, p);
    StillMissing(g, keep, s, s', f, p);
  }

  lemma {:induction false} MovedCursor(g: Graph, keep: bool, s: State, m: Edge, xs: set<Trace>, ys: set<Trace>,
                                       r: Value, drop: bool, s': State, e: Edge)
    requires CanMove(g, keep, s, m, xs, ys, r, drop) && Moved(g, s, m, xs, ys, r, drop, s')
    requires e in Cursors(g)
    ensures InvCursor(g, s', e)
  {
    var u := g.succ[m];
    assert InvCursor(g, s, e);
    assert m.src != u && m.src != g.fin;
    if e.src == u {
      assert s'.Wait(e) == if drop then s.Wait(e) else s.Wait(e) + ys;
    } else {
      assert s'.Kept(e.src) == s.Kept(e.src) && s'.Bound(e.src) == s.Bound(e.src);
      assert s'.Wait(e) <= s.Wait(e);
    }
    if e in g.succ {
      assert AtMost(s'.Bound(e.src), s.Bound(e.src));
    }
  }

  lemma {:induction false} Move(g: Graph, keep: bool, s: State, m: Edge, xs: set<Trace>, ys: set<Trace>,
                                r: Value, drop: bool, s': State)
    requires CanMove(g, keep, s, m, xs, ys, r, drop) && Moved(g, s, m, xs, ys, r, drop, s')
    ensures Inv(g, keep, s')
  {
    forall v: nat, t ensures InvKept(g, s', v, t) {
      MovedKept(g, keep, s, m, xs, ys, r, drop, s', v, t);
    }
    forall e, t | e in g.succ ensures InvRead(g, keep, s', e, t) {
      MovedRead(g, keep, s, m, xs, ys, r, drop, s', e, t);
    }
    forall v: nat, t ensures InvMissing(g, keep, s', v, t) {
      MovedMissing(g, keep, s, m, xs, ys, r, drop, s', v, t);
    }
    forall e | e in Cursors(g) ensures InvCursor(g, s', e) {
      MovedCursor(g, keep, s, m, xs, ys, r, drop, s', e);
    }
  }

  /** Finding more prefixes unsatisfiable keeps the invariant. */
  lemma {:induction false} Declare(g: Graph, keep: bool, s: State, more: set<Trace>)
    requires Inv(g, keep, s) && s.declared <= more
    ensures Inv(g, keep, s.(declared := more))
  {
    var s' := s.(declared := more);
    forall v: nat, t ensures InvKept(g, s', v, t) {
      assert InvKept(g, s, v, t);
    }
    forall e, t | e in g.succ ensures InvRead(g, keep, s', e, t) {
      assert InvRead(g, keep, s, e, t);
    }
    forall v: nat, t ensures InvMissing(g, keep, s', v, t) {
      assert InvMissing(g, keep, s, v, t);
    }
    forall e | e in Cursors(g) ensures InvCursor(g, s', e) {
      assert InvCursor(g, s, e);
    }
  }

  // What was dropped.

  /** The paths to `v` that an edge has read and that are not in the stream of `v`. */
  ghost function Dropped(g: Graph, s: State, v: nat): set<Trace> {
    set e, t | e in g.succ && g.succ[e] == v && t in s.Kept(e.src) && t !in s.Wait(e) && t + [e] !in s.Kept(v)
      :: t + [e]
  }

  ghost function Drops(g: Graph, s: State, v: nat): nat { |Dropped(g, s, v)| }

  /** `n` paths to `v` have been dropped between `s` and `s'`. */
  ghost predicate DropsBy(g: Graph, s: State, s': State, v: nat, n: nat) { Drops(g, s', v) == Drops(g, s, v) + n }

  ghost predicate DropsHere(g: Graph, s: State, v: nat, p: Trace) {
    && p != [] && Last(p) in g.succ && g.succ[Last(p)] == v
    && Init(p) in s.Kept(Last(p).src) && Init(p) !in s.Wait(Last(p)) && p !in s.Kept(v)
  }

  lemma {:induction false} DroppedIs(g: Graph, s: State, v: nat, p: Trace)
    ensures p in Dropped(g, s, v) <==> DropsHere(g, s, v, p)
  {
    if p in Dropped(g, s, v) {
      var e, t :| e in g.succ && g.succ[e] == v && t in s.Kept(e.src) && t !in s.Wait(e) && t + [e] !in s.Kept(v)
               && p == t + [e];
      assert Last(p) == e && Init(p) == t;
    }
    if p != [] {
      assert p == Init(p) + [Last(p)];
    }
  }

  /** They are unsatisfiable, and none are there if such paths are kept. */
  lemma {:induction false} DroppedAre(g: Graph, keep: bool, s: State, v: nat, p: Trace)
    requires Inv(g, keep, s) && p in Dropped(g, s, v)
    ensures !keep && Walk(g, p, v) && Declared(s.declared, p) && p !in s.Kept(v)
  {
    DroppedIs(g, s, v, p);
    var e, t := Last(p), Init(p);
    assert p == t + [e];
    assert InvKept(g, s, e.src, t) && InvRead(g, keep, s, e, t);
    WalkExtend(g, t, e);
  }

  /** A move drops what it throws away, and nothing else. */
  lemma {:induction false} MovedDrops(g: Graph, keep: bool, s: State, m: Edge, xs: set<Trace>, ys: set<Trace>, r: Value,
                                      drop: bool, s': State, v: nat)
    requires CanMove(g, keep, s, m, xs, ys, r, drop) && Moved(g, s, m, xs, ys, r, drop, s')
    ensures DropsBy(g, s, s', v, if drop && v == g.succ[m] then |ys| else 0)
  {
    var more: set<Trace> := if drop && v == g.succ[m] then ys else {};
    forall p ensures p in Dropped(g, s', v) <==> p in Dropped(g, s, v) || p in more {
      DroppedIs(g, s, v, p);
      DroppedIs(g, s', v, p);
      DroppedStep(g, keep, s, m, xs, ys, r, drop, s', v, p);
    }
    forall p | p in more ensures p !in Dropped(g, s, v) {
      DroppedIs(g, s, v, p);
      MovedNew(g, keep, s, m, xs, ys, p);
    }
    assert Dropped(g, s', v) == Dropped(g, s, v) + more;
  }

  lemma {:induction false} DroppedStep(g: Graph, keep: bool, s: State, m: Edge, xs: set<Trace>, ys: set<Trace>,
                                       r: Value, drop: bool, s': State, v: nat, p: Trace)
    requires CanMove(g, keep, s, m, xs, ys, r, drop) && Moved(g, s, m, xs, ys, r, drop, s')
    ensures DropsHere(g, s', v, p) <==> DropsHere(g, s, v, p) || (drop && v == g.succ[m] && p in ys)
  {
    if p in ys {
      MovedNew(g, keep, s, m, xs, ys, p);
    }
    if p != [] && Last(p) in g.succ {
      assert Last(p) in Cursors(g);
      if Init(p) in ys {
        MovedNew(g, keep, s, m, xs, ys, Init(p));
        assert InvCursor(g, s, Last(p));
      }
      if Last(p) == m && Init(p) in xs {
        assert p == Init(p) + [m];
      }
    }
  }
}
