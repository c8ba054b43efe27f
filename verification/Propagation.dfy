/** The two passes of `cfg::propagate_sizes` over the vectors stored with the edges. */
module Propagation {
  import opened Dag
  import opened Sizes
  import opened SizeFlow

  type Vectors = map<Edge, Vector>

  ghost predicate Stores(m: Vectors, e: Edge, S: set<nat>) {
    e in m && Exactly(m[e], S)
  }

  // The first pass.

  /** The edges handled so far when some of those into `v` are. */
  ghost predicate Backwards(f: Flow, done: set<Edge>, v: nat) {
    forall q :: q in f.g.succ ==> (f.g.succ[q] > v ==> q in done) && (q in done ==> f.g.succ[q] >= v)
  }

  ghost function SoFar(f: Flow, done: set<Edge>, e: Edge): set<nat>
    requires f.Valid() && done <= f.g.succ.Keys && e in f.g.succ
  {
    if e in done then Later(f, e) else After(f, f.g.succ[e], done)
  }

  /** Edge `e` is done and its sizes went to the first `k` edges into its source. */
  ghost function Passing(f: Flow, done: set<Edge>, e: Edge, k: nat, q: Edge): set<nat>
    requires f.Valid() && done <= f.g.succ.Keys && e in f.g.succ && q in f.g.succ && k <= |f.g.preds[e.src]|
  {
    if q == e then Later(f, e)
    else if q in f.g.preds[e.src][..k] then SoFar(f, done + {e}, q)
    else SoFar(f, done, q)
  }

  ghost predicate First(f: Flow, done: set<Edge>, sizes: Vectors)
    requires f.Valid() && done <= f.g.succ.Keys
  {
    forall q {:trigger SoFar(f, done, q)} :: q in f.g.succ ==> Stores(sizes, q, SoFar(f, done, q))
  }

  ghost predicate FirstPassing(f: Flow, done: set<Edge>, e: Edge, k: nat, sizes: Vectors)
    requires f.Valid() && done <= f.g.succ.Keys && e in f.g.succ && k <= |f.g.preds[e.src]|
  {
    forall q {:trigger Passing(f, done, e, k, q)} :: q in f.g.succ ==> Stores(sizes, q, Passing(f, done, e, k, q))
  }

  /** Before `e` is handled it has the sizes of all edges that leave its target. */
  lemma {:induction false} Complete(f: Flow, done: set<Edge>, e: Edge)
    requires f.Valid() && done <= f.g.succ.Keys && e in f.g.succ && Backwards(f, done, f.g.succ[e])
    ensures AtLeast(SoFar(f, done, e), f.least[e]) + {f.least[e]} == Later(f, e)
  {
    var v := f.g.succ[e];
    assert forall b: bool :: Edge(v, b) in f.g.succ ==> Edge(v, b) in done;
    if e !in done {
      assert After(f, v, done) == After(f, v, f.g.succ.Keys);
    }
  }

  lemma {:induction false} PassStart(f: Flow, done: set<Edge>, e: Edge, sizes: Vectors, r: Vector)
    requires f.Valid() && done <= f.g.succ.Keys && e in f.g.succ
    requires First(f, done, sizes) && Exactly(r, Later(f, e))
    ensures FirstPassing(f, done, e, 0, sizes[e := r])
  {
    forall q | q in f.g.succ ensures Stores(sizes[e := r], q, Passing(f, done, e, 0, q)) {
      assert Stores(sizes, q, SoFar(f, done, q));
    }
  }

  /** Edge number `k` into the source of `e` receives the sizes of `e`. */
  lemma {:induction false} Receives(f: Flow, done: set<Edge>, e: Edge, k: nat)
    requires f.Valid() && done <= f.g.succ.Keys && e in f.g.succ && Backwards(f, done, f.g.succ[e])
    requires k < |f.g.preds[e.src]|
    ensures f.g.preds[e.src][k] in f.g.succ && f.g.preds[e.src][k] != e
    ensures Passing(f, done, e, k, f.g.preds[e.src][k]) + Later(f, e) == SoFar(f, done + {e}, f.g.preds[e.src][k])
  {
    var p := f.g.preds[e.src][k];
    assert p in f.g.preds[e.src];
    assert f.g.succ[p] == e.src && p !in done;
  }

  lemma {:induction false} PassStep(f: Flow, done: set<Edge>, e: Edge, k: nat, sizes: Vectors, r: Vector)
    requires f.Valid() && done <= f.g.succ.Keys && e in f.g.succ
    requires k < |f.g.preds[e.src]| && FirstPassing(f, done, e, k, sizes)
    requires f.g.preds[e.src][k] in f.g.succ && f.g.preds[e.src][k] != e
    requires Exactly(r, SoFar(f, done + {e}, f.g.preds[e.src][k]))
    ensures FirstPassing(f, done, e, k + 1, sizes[f.g.preds[e.src][k] := r])
  {
    var ps := f.g.preds[e.src];
    assert ps[..k + 1] == ps[..k] + [ps[k]];
    forall q | q in f.g.succ ensures Stores(sizes[ps[k] := r], q, Passing(f, done, e, k + 1, q)) {
      assert Stores(sizes, q, Passing(f, done, e, k, q));
    }
  }

  lemma {:induction false} PassEnd(f: Flow, done: set<Edge>, e: Edge, sizes: Vectors)
    requires f.Valid() && done <= f.g.succ.Keys && e in f.g.succ
    requires FirstPassing(f, done, e, |f.g.preds[e.src]|, sizes)
    ensures First(f, done + {e}, sizes)
  {
    var n := |f.g.preds[e.src]|;
    assert f.g.preds[e.src][..n] == f.g.preds[e.src];
    forall q | q in f.g.succ ensures Stores(sizes, q, SoFar(f, done + {e}, q)) {
      assert Stores(sizes, q, Passing(f, done, e, n, q));
      if q !in done + {e} && q !in f.g.preds[e.src] {
        assert f.g.succ[q] != e.src;
        assert After(f, f.g.succ[q], done) == After(f, f.g.succ[q], done + {e});
      }
    }
  }

  // The second pass.

  ghost predicate Forwards(f: Flow, done: set<Edge>, v: nat) {
    forall q :: q in f.g.succ && f.g.succ[q] < v ==> q in done
  }

  ghost function PossibleSoFar(f: Flow, done: set<Edge>, e: Edge): set<nat>
    requires f.Valid() && e in f.g.succ
  {
    if e in done then Possible(f, e) else Offered(f, e)
  }

  ghost function ProducedSoFar(f: Flow, done: set<Edge>, e: Edge): set<nat>
    requires f.Valid() && e in f.g.succ
  {
    if e in done then Produced(f, e) else {}
  }

  ghost function KeptSoFar(f: Flow, done: set<Edge>, e: Edge): set<nat>
    requires f.Valid() && e in f.g.succ
  {
    if e in done then Kept(f, e) else Later(f, e)
  }

  ghost predicate Progress(f: Flow, done: set<Edge>, sizes: Vectors, possible: Vectors, produced: Vectors, e: Edge)
    requires f.Valid() && e in f.g.succ
  {
    && Stores(sizes, e, KeptSoFar(f, done, e))
    && Stores(possible, e, PossibleSoFar(f, done, e))
    && Stores(produced, e, ProducedSoFar(f, done, e))
  }

  ghost predicate Second(f: Flow, done: set<Edge>, sizes: Vectors, possible: Vectors, produced: Vectors)
    requires f.Valid()
  {
    forall q {:trigger Progress(f, done, sizes, possible, produced, q)} :: q in f.g.succ ==>
      Progress(f, done, sizes, possible, produced, q)
  }

  /** Handling an edge again would change nothing. */
  lemma {:induction false} Settles(f: Flow, done: set<Edge>, e: Edge)
    requires f.Valid() && e in f.g.succ
    ensures Into(f, f.g.preds[e.src], e.src)
    ensures AtLeast(PossibleSoFar(f, done, e) + PossibleOf(f, f.g.preds[e.src], e.src), f.least[e]) == Possible(f, e)
    ensures AtLeast(ProducedSoFar(f, done, e) + ProducedOf(f, f.g.preds[e.src], e.src), f.least[e]) + {f.least[e]}
      == Produced(f, e)
    ensures KeptSoFar(f, done, e) * Possible(f, e) + Produced(f, e) == Kept(f, e)
  {
    PredsInto(f, e.src);
  }

  lemma {:induction false} SecondStep(f: Flow, done: set<Edge>, e: Edge, sizes: Vectors, possible: Vectors,
                                      produced: Vectors,
                   s: Vector, pos: Vector, pro: Vector)
    requires f.Valid() && e in f.g.succ && Second(f, done, sizes, possible, produced)
    requires Exactly(s, Kept(f, e)) && Exactly(pos, Possible(f, e)) && Exactly(pro, Produced(f, e))
    ensures Second(f, done + {e}, sizes[e := s], possible[e := pos], produced[e := pro])
  {
    forall q | q in f.g.succ
      ensures Progress(f, done + {e}, sizes[e := s], possible[e := pos], produced[e := pro], q)
    {
      assert Progress(f, done, sizes, possible, produced, q);
    }
  }

  ghost predicate Finished(f: Flow, sizes: Vectors)
    requires f.Valid()
  {
    forall q {:trigger Kept(f, q)} :: q in f.g.succ ==> Stores(sizes, q, Kept(f, q))
  }

  lemma {:induction false} SecondEnd(f: Flow, sizes: Vectors, possible: Vectors, produced: Vectors)
    requires f.Valid() && Second(f, f.g.succ.Keys, sizes, possible, produced)
    ensures Finished(f, sizes)
  {
    forall q | q in f.g.succ ensures Stores(sizes, q, Kept(f, q)) {
      assert Progress(f, f.g.succ.Keys, sizes, possible, produced, q);
    }
  }

  /** `sizes` keeps a queue for the packet size of `t` on every edge of `t`. */
  ghost predicate NeverDropped(f: Flow, sizes: Vectors, t: Trace) {
    forall i :: 0 <= i < |t| ==>
      t[i] in sizes && (forall e :: e in t ==> e in f.least) && Find(sizes[t[i]], PacketSize(f, t)).Some?
  }

  lemma {:induction false} KeptAlong(f: Flow, sizes: Vectors, t: Trace, v: nat)
    requires f.Valid() && Finished(f, sizes) && Walk(f.g, t, v)
    ensures NeverDropped(f, sizes, t)
  {
    WalkEdges(f.g, t, v);
    forall i | 0 <= i < |t| ensures t[i] in sizes && Find(sizes[t[i]], PacketSize(f, t)).Some? {
      PathKept(f, t, v, i);
      assert Stores(sizes, t[i], Kept(f, t[i]));
    }
  }

  /** Every edge keeps the sizes it needs and no others. */
  ghost predicate OnlyNeeded(f: Flow, sizes: Vectors) {
    forall e, s: nat :: e in f.g.succ ==> Keeps(f, sizes, e, s)
  }

  ghost predicate Keeps(f: Flow, sizes: Vectors, e: Edge, s: nat) {
    e in sizes && (Find(sizes[e], s).Some? <==> Needed(f, e, s))
  }

  lemma {:induction false} KeptOnly(f: Flow, sizes: Vectors)
    requires f.Valid() && Finished(f, sizes)
    ensures OnlyNeeded(f, sizes)
  {
    forall e, s: nat | e in f.g.succ ensures Keeps(f, sizes, e, s) {
      assert Stores(sizes, e, Kept(f, e));
      KeptExact(f, e, s);
    }
  }

  lemma {:induction false} ReturnedOnly(f: Flow, all: Vector)
    requires f.Valid() && Into(f, f.g.preds[f.g.fin], f.g.fin)
    requires Exactly(all, KeptOf(f, f.g.preds[f.g.fin], f.g.fin))
    ensures forall s: nat {:trigger Find(all, s)} :: Find(all, s).Some? <==>
              exists e :: e in f.g.succ && f.g.succ[e] == f.g.fin && Needed(f, e, s)
  {
    forall s: nat ensures Find(all, s).Some? <==>
                            exists e :: e in f.g.succ && f.g.succ[e] == f.g.fin && Needed(f, e, s)
    {
      ReturnedExact(f, f.g.preds[f.g.fin], f.g.fin, s);
    }
  }

  class Propagator {
    const f: Flow
    var sizes: Vectors
    var possible: Vectors
    var produced: Vectors

    constructor (f: Flow)
      requires f.Valid()
      ensures this.f == f && First(f, {}, sizes)
    {
      this.f := f;
      this.sizes := Nothing(f);
      this.possible := map[];
      this.produced := map[];
    }

    /** One edge of the first pass. */
    method Collect(e: Edge, ghost done: set<Edge>)
      requires f.Valid() && done <= f.g.succ.Keys && e in f.g.succ && Backwards(f, done, f.g.succ[e])
      requires First(f, done, sizes)
      modifies this`sizes
      ensures First(f, done + {e}, sizes)
    {
      assert Stores(sizes, e, SoFar(f, done, e));
      var r := Cut(sizes[e], f.least[e], SoFar(f, done, e));
      r := Join(r, Single(f.least[e]), AtLeast(SoFar(f, done, e), f.least[e]), {f.least[e]});
      Complete(f, done, e);
      PassStart(f, done, e, sizes, r);
      sizes := sizes[e := r];
      var ps := f.g.preds[e.src];
      for k := 0 to |ps|
        invariant FirstPassing(f, done, e, k, sizes)
      {
        Receives(f, done, e, k);
        assert Stores(sizes, e, Passing(f, done, e, k, e)) && Stores(sizes, ps[k], Passing(f, done, e, k, ps[k]));
        var r := Join(sizes[ps[k]], sizes[e], Passing(f, done, e, k, ps[k]), Later(f, e));
        PassStep(f, done, e, k, sizes, r);
        sizes := sizes[ps[k] := r];
      }
      PassEnd(f, done, e, sizes);
    }

    /** What the edges into the source of `e` contribute to the second pass. */
    method Gather(e: Edge, ghost done: set<Edge>) returns (pos: Vector, pro: Vector)
      requires f.Valid() && e in f.g.succ && Forwards(f, done, f.g.succ[e])
      requires Second(f, done, sizes, possible, produced)
      ensures Into(f, f.g.preds[e.src], e.src)
      ensures Exactly(pos, PossibleSoFar(f, done, e) + PossibleOf(f, f.g.preds[e.src], e.src))
      ensures Exactly(pro, ProducedSoFar(f, done, e) + ProducedOf(f, f.g.preds[e.src], e.src))
    {
      PredsInto(f, e.src);
      assert Progress(f, done, sizes, possible, produced, e);
      var ps := f.g.preds[e.src];
      pos, pro := possible[e], produced[e];
      ghost var P, R := PossibleSoFar(f, done, e), ProducedSoFar(f, done, e);
      assert P + {} == P && R + {} == R;
      for k := 0 to |ps|
        invariant Into(f, ps[..k], e.src)
        invariant Exactly(pos, P + PossibleOf(f, ps[..k], e.src))
        invariant Exactly(pro, R + ProducedOf(f, ps[..k], e.src))
      {
        ghost var P', R' := PossibleOf(f, ps[..k], e.src), ProducedOf(f, ps[..k], e.src);
        OneMore(f, ps, e.src, k, P, R);
        assert Progress(f, done, sizes, possible, produced, ps[k]);
        pos := Join(pos, possible[ps[k]], P + P', Possible(f, ps[k]));
        pro := Join(pro, produced[ps[k]], R + R', Produced(f, ps[k]));
      }
      assert ps[..|ps|] == ps;
    }

    /** One edge of the second pass. */
    method Settle(e: Edge, ghost done: set<Edge>)
      requires f.Valid() && e in f.g.succ && Forwards(f, done, f.g.succ[e])
      requires Second(f, done, sizes, possible, produced)
      modifies this`sizes, this`possible, this`produced
      ensures Second(f, done + {e}, sizes, possible, produced)
    {
      var pos, pro := Gather(e, done);
      Settles(f, done, e);
      ghost var ps := f.g.preds[e.src];
      ghost var P, R := PossibleSoFar(f, done, e), ProducedSoFar(f, done, e);
      var m := f.least[e];
      pos := Cut(pos, m, P + PossibleOf(f, ps, e.src));
      pro := Cut(pro, m, R + ProducedOf(f, ps, e.src));
      pro := Join(pro, Single(m), AtLeast(R + ProducedOf(f, ps, e.src), m), {m});
      assert Progress(f, done, sizes, possible, produced, e);
      var s := Meet(sizes[e], pos, KeptSoFar(f, done, e), Possible(f, e));
      s := Join(s, pro, KeptSoFar(f, done, e) * Possible(f, e), Produced(f, e));
      SecondStep(f, done, e, sizes, possible, produced, s, pos, pro);
      sizes, possible, produced := sizes[e := s], possible[e := pos], produced[e := pro];
    }

    /** `propagate_sizes`: on every edge of a path, and in the returned vector, there is the path's packet size. */
    method Run() returns (all: Vector)
      requires f.Valid() && First(f, {}, sizes)
      modifies this`sizes, this`possible, this`produced
      ensures Finished(f, sizes)
      ensures forall t, v :: Walk(f.g, t, v) ==> NeverDropped(f, sizes, t)
      ensures forall t :: Walk(f.g, t, f.g.fin) ==> Returned(f, all, t)
      ensures OnlyNeeded(f, sizes)
      ensures forall s: nat {:trigger Find(all, s)} :: Find(all, s).Some? <==>
                exists e :: e in f.g.succ && f.g.succ[e] == f.g.fin && Needed(f, e, s)
    {
      FirstPass();
      SecondStart(f, sizes);
      possible, produced := FromStart(f, sizes), Nothing(f);
      SecondPass();
      all := Union();
      forall t, v | Walk(f.g, t, v) ensures NeverDropped(f, sizes, t) {
        KeptAlong(f, sizes, t, v);
      }
      forall t | Walk(f.g, t, f.g.fin) ensures Returned(f, all, t) {
        KeptAtEnd(f, all, t);
      }
      KeptOnly(f, sizes);
      ReturnedOnly(f, all);
    }

    method Union() returns (all: Vector)
      requires f.Valid() && Finished(f, sizes)
      ensures Into(f, f.g.preds[f.g.fin], f.g.fin)
      ensures Exactly(all, KeptOf(f, f.g.preds[f.g.fin], f.g.fin))
    {
      PredsInto(f, f.g.fin);
      var ps := f.g.preds[f.g.fin];
      all := [];
      for k := 0 to |ps|
        invariant Into(f, ps[..k], f.g.fin) && Exactly(all, KeptOf(f, ps[..k], f.g.fin))
      {
        assert ps[..k + 1][..k] == ps[..k];
        assert Stores(sizes, ps[k], Kept(f, ps[k]));
        all := Join(all, sizes[ps[k]], KeptOf(f, ps[..k], f.g.fin), Kept(f, ps[k]));
      }
      assert ps[..|ps|] == ps;
    }

    method FirstPass()
      requires f.Valid() && First(f, {}, sizes)
      modifies this`sizes
      ensures First(f, f.g.succ.Keys, sizes)
    {
      ghost var done := {};
      for v := f.g.size downto 0
        invariant done == EdgesFrom(f, v) && First(f, done, sizes)
      {
        var ps := f.g.preds[v];
        PredsInto(f, v);
        for i := 0 to |ps|
          invariant done == EdgesFrom(f, v + 1) + (set q | q in ps[..i])
          invariant done <= f.g.succ.Keys && First(f, done, sizes)
        {
          assert ps[..i + 1] == ps[..i] + [ps[i]];
          Collect(ps[i], done);
          done := done + {ps[i]};
        }
        assert ps[..|ps|] == ps;
      }
      assert done == f.g.succ.Keys;
    }

    method SecondPass()
      requires f.Valid() && Second(f, {}, sizes, possible, produced)
      modifies this`sizes, this`possible, this`produced
      ensures Finished(f, sizes)
    {
      ghost var done := {};
      for v := 0 to f.g.size
        invariant done == EdgesTo(f, v) && Second(f, done, sizes, possible, produced)
      {
        var ps := f.g.preds[v];
        PredsInto(f, v);
        for i := 0 to |ps|
          invariant done == EdgesTo(f, v) + (set q | q in ps[..i])
          invariant Second(f, done, sizes, possible, produced)
        {
          assert ps[..i + 1] == ps[..i] + [ps[i]];
          Settle(ps[i], done);
          done := done + {ps[i]};
        }
        assert ps[..|ps|] == ps;
      }
      assert done == f.g.succ.Keys;
      SecondEnd(f, sizes, possible, produced);
    }
  }

  ghost function EdgesFrom(f: Flow, v: nat): set<Edge>
  {
    set q | q in f.g.succ && f.g.succ[q] >= v
  }

  ghost function EdgesTo(f: Flow, v: nat): set<Edge>
  {
    set q | q in f.g.succ && f.g.succ[q] < v
  }

  lemma {:induction false} OneMore(f: Flow, ps: seq<Edge>, v: nat, k: nat, P: set<nat>, R: set<nat>)
    requires f.Valid() && Into(f, ps, v) && k < |ps|
    ensures Into(f, ps[..k], v) && Into(f, ps[..k + 1], v)
    ensures P + PossibleOf(f, ps[..k], v) + Possible(f, ps[k]) == P + PossibleOf(f, ps[..k + 1], v)
    ensures R + ProducedOf(f, ps[..k], v) + Produced(f, ps[k]) == R + ProducedOf(f, ps[..k + 1], v)
  {
    assert ps[..k + 1][..k] == ps[..k] && ps[..k + 1][k] == ps[k];
  }

  function Nothing(f: Flow): Vectors {
    map e | e in f.g.succ :: []
  }

  function FromStart(f: Flow, sizes: Vectors): Vectors {
    map e | e in f.g.succ :: if e.src == 0 && e in sizes then sizes[e] else []
  }

  lemma {:induction false} SecondStart(f: Flow, sizes: Vectors)
    requires f.Valid() && First(f, f.g.succ.Keys, sizes)
    ensures Second(f, {}, sizes, FromStart(f, sizes), Nothing(f))
  {
    forall e | e in f.g.succ ensures Stores(sizes, e, Later(f, e)) {
      assert Stores(sizes, e, SoFar(f, f.g.succ.Keys, e));
    }
  }

  ghost predicate Returned(f: Flow, all: Vector, t: Trace) {
    (forall e :: e in t ==> e in f.least) && Find(all, PacketSize(f, t)).Some?
  }

  lemma {:induction false} KeptAtEnd(f: Flow, all: Vector, t: Trace)
    requires f.Valid() && Walk(f.g, t, f.g.fin) && Into(f, f.g.preds[f.g.fin], f.g.fin)
    requires Exactly(all, KeptOf(f, f.g.preds[f.g.fin], f.g.fin))
    ensures Returned(f, all, t)
  {
    WalkEdges(f.g, t, f.g.fin);
    PathReturned(f, t);
  }
}
