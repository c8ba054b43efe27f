/** One step of the enumeration: the best path that the incoming edges of a node offer is
read, extended over its edge and added to what the node has produced. */
module Reading {
  import opened Dag
  import opened Streams
  import opened PathQueues

  function Extended(ms: seq<Trace>, m: Edge): (r: seq<Trace>)
    ensures |r| == |ms| && forall i :: 0 <= i < |ms| ==> r[i] == ms[i] + [m]
  {
    seq(|ms|, i requires 0 <= i < |ms| => ms[i] + [m])
  }

  /** `y` may come out of extending `x` over `m` (`extend`, `extendn` and `extendi`): an
  unsatisfiable path stays so, a satisfiable one may turn out unsatisfiable. */
  predicate Extends(x: Item, m: Edge, y: Item, declared: set<Trace>) {
    match x
    case NoPath => y == NoPath
    case Impossible(ms) => y == Impossible(Extended(ms, m))
    case Possible(t) => y == Possible(t + [m]) || (y == Impossible([t + [m]]) && Declared(declared, t + [m]))
  }

  /** Each member of `x` becomes the member of `y` in the same place. */
  ghost predicate Pointwise(a: seq<Trace>, m: Edge, b: seq<Trace>) {
    |a| == |b| && forall i :: 0 <= i < |a| ==> b[i] == a[i] + [m]
  }

  lemma {:induction false} ExtendsPointwise(x: Item, m: Edge, y: Item, declared: set<Trace>)
    requires Extends(x, m, y, declared)
    ensures Pointwise(Members(x), m, Members(y))
  {
  }

  lemma {:induction false} PointwiseExtension(a: seq<Trace>, m: Edge, b: seq<Trace>)
    requires Pointwise(a, m, b)
    ensures Extension((set t | t in a), m, (set t | t in b))
  {
    forall t | t in b ensures t != [] && Last(t) == m && Init(t) in a {
      var i :| 0 <= i < |b| && b[i] == t;
      assert Init(a[i] + [m]) == a[i];
    }
    forall t | t in a ensures t + [m] in b {
      var i :| 0 <= i < |a| && a[i] == t;
      assert b[i] == t + [m];
    }
  }

  lemma {:induction false} PointwiseNoRepeat(a: seq<Trace>, m: Edge, b: seq<Trace>)
    requires Pointwise(a, m, b) && NoRepeat(a)
    ensures NoRepeat(b)
  {
    forall i, j | 0 <= i < j < |b| ensures b[i] != b[j] {
      assert Init(a[i] + [m]) == a[i] && Init(a[j] + [m]) == a[j];
    }
  }

  lemma {:induction false} ExtendsDeclared(x: Item, m: Edge, y: Item, declared: set<Trace>)
    requires Extends(x, m, y, declared) && AllDeclared(x, declared)
    ensures AllDeclared(y, declared)
  {
    if x.Impossible? {
      ExtendsPointwise(x, m, y, declared);
      var a, b := Members(x), Members(y);
      forall t | t in b ensures Declared(declared, t) {
        var i :| 0 <= i < |b| && b[i] == t;
        assert a[i] in a;
        DeclaredExtend(declared, a[i], m);
      }
    }
  }

  lemma {:induction false} ExtendsMembers(x: Item, m: Edge, y: Item, declared: set<Trace>)
    requires Extends(x, m, y, declared)
    ensures Pointwise(Members(x), m, Members(y))
    ensures Extension(MemberSet(x), m, MemberSet(y))
    ensures NoRepeat(Members(x)) ==> NoRepeat(Members(y))
    ensures AllDeclared(x, declared) ==> AllDeclared(y, declared)
  {
    ExtendsPointwise(x, m, y, declared);
    PointwiseExtension(Members(x), m, Members(y));
    if NoRepeat(Members(x)) {
      PointwiseNoRepeat(Members(x), m, Members(y));
    }
    if AllDeclared(x, declared) {
      ExtendsDeclared(x, m, y, declared);
    }
  }

  lemma {:induction false} PossibleRank(g: Graph, t: Trace, m: Edge)
    requires m in g.succ && Walk(g, t, m.src)
    ensures Rank(g, Possible(t + [m])) == Plus(Rank(g, Possible(t)), Weight(g, m))
    ensures Rank(g, Impossible([t + [m]])) == Plus(Rank(g, Possible(t)), Weight(g, m))
  {
    WalkExtend(g, t, m);
  }

  lemma {:induction false} ImpossibleRank(g: Graph, ms: seq<Trace>, m: Edge)
    requires m in g.succ && (ms != [] ==> Walk(g, ms[|ms| - 1], m.src))
    ensures Rank(g, Impossible(Extended(ms, m))) == Plus(Rank(g, Impossible(ms)), Weight(g, m))
  {
    if ms != [] {
      WalkExtend(g, ms[|ms| - 1], m);
    }
  }

  lemma {:induction false} ExtendsRank(g: Graph, x: Item, m: Edge, y: Item, declared: set<Trace>)
    requires Extends(x, m, y, declared) && m in g.succ && forall t :: t in Members(x) ==> Walk(g, t, m.src)
    ensures Rank(g, y) == Plus(Rank(g, x), Weight(g, m))
  {
    match x
    case NoPath =>
    case Possible(t) =>
      assert t in Members(x);
      PossibleRank(g, t, m);
    case Impossible(ms) =>
      assert ms != [] ==> ms[|ms| - 1] in Members(x);
      ImpossibleRank(g, ms, m);
  }

  lemma {:induction false} HoldsMember(q: seq<Item>, w: set<Trace>, t: Trace) returns (i: nat)
    requires Holds(q, w) && t in w
    ensures i < |q| && t in Members(q[i])
  {
    if t in MemberSet(q[0]) {
      i := 0;
    } else {
      i := HoldsMember(q[1..], w - MemberSet(q[0]), t);
      i := i + 1;
    }
  }

  lemma {:induction false} HoldsAppend(q: seq<Item>, w: set<Trace>, y: Item)
    requires Holds(q, w) && NoRepeat(Members(y)) && MemberSet(y) !! w
    ensures Holds(q + [y], w + MemberSet(y))
  {
    var r := q + [y];
    if q == [] {
      assert r[1..] == [];
      assert (w + MemberSet(y)) - MemberSet(y) == {};
    } else {
      HoldsAppend(q[1..], w - MemberSet(q[0]), y);
      assert r[1..] == q[1..] + [y];
      assert (w + MemberSet(y)) - MemberSet(q[0]) == (w - MemberSet(q[0])) + MemberSet(y);
    }
  }

  // ---------------------------------------------------------------------------

  function Read(merging: bool, qs: Queues, m: Edge, y: Item, drop: bool): Queues
    requires qs.Pq(m) != []
  {
    qs.(pq := qs.pq[m := qs.Pq(m)[1..]], buffer := if drop then qs.buffer else Push(merging, qs.buffer, [y]))
  }

  /** The same step on what the queues stand for. */
  ghost function After(g: Graph, s: State, m: Edge, xs: set<Trace>, ys: set<Trace>, r: Value, drop: bool): State
    requires m in g.succ
  {
    var u := g.succ[m];
    State(
      map e | e in Cursors(g) ::
        if e == m then s.Wait(m) - xs else if e.src == u && !drop then s.Wait(e) + ys else s.Wait(e),
      if drop then s.kept else s.kept[u := s.Kept(u) + ys],
      s.bound[u := r],
      s.declared)
  }

  lemma {:induction false} AfterMoved(g: Graph, s: State, m: Edge, xs: set<Trace>, ys: set<Trace>, r: Value,
                                      drop: bool)
    requires g.Valid() && m in g.succ
    ensures Moved(g, s, m, xs, ys, r, drop, After(g, s, m, xs, ys, r, drop))
  {
    var s' := After(g, s, m, xs, ys, r, drop);
    forall e | e in Cursors(g) && e.src == g.succ[m]
      ensures s'.Wait(e) == if drop then s.Wait(e) else s.Wait(e) + ys
    {
      assert e != m;
    }
  }

  /** What the edges into `v` had to read they have still to read. */
  ghost predicate NoneRead(g: Graph, s: State, s': State, v: nat) {
    forall f {:trigger s.Wait(f)} {:trigger s'.Wait(f)} :: f in g.succ && g.succ[f] == v ==> s.Wait(f) <= s'.Wait(f)
  }

  /** Nothing but `xs` has been read over the edges. */
  ghost predicate ReadsOnly(g: Graph, s: State, s': State, xs: set<Trace>) {
    forall f {:trigger s.Wait(f)} {:trigger s'.Wait(f)} :: f in g.succ ==> s.Wait(f) <= s'.Wait(f) + xs
  }

  lemma {:induction false} AfterReadsOnly(g: Graph, s: State, m: Edge, xs: set<Trace>, ys: set<Trace>, r: Value,
                                          drop: bool)
    requires g.Valid() && m in g.succ
    ensures ReadsOnly(g, s, After(g, s, m, xs, ys, r, drop), xs)
  {
  }

  lemma {:induction false} AfterNoneRead(g: Graph, s: State, m: Edge, xs: set<Trace>, ys: set<Trace>, r: Value,
                                         drop: bool)
    requires g.Valid() && m in g.succ
    ensures forall v: nat {:trigger NoneRead(g, s, After(g, s, m, xs, ys, r, drop), v)} ::
              v != g.succ[m] ==> NoneRead(g, s, After(g, s, m, xs, ys, r, drop), v)
  {
  }

  /** `m` is an edge whose first path is the best one offered to its target. */
  ghost predicate Best(g: Graph, qs: Queues, bound: Value, m: Edge) {
    && m in g.succ
    && qs.node == g.succ[m]
    && bound != NegInf
    && (forall f {:trigger Offer(g, qs, m, f)} :: f in g.succ && g.succ[f] == g.succ[m] ==> Offer(g, qs, m, f))
  }

  ghost predicate Offer(g: Graph, qs: Queues, m: Edge, f: Edge) {
    && qs.Pq(f) != [] && qs.Pq(m) != []
    && AtMost(Plus(Rank(g, qs.Pq(f)[0]), Weight(g, f)), Plus(Rank(g, qs.Pq(m)[0]), Weight(g, m)))
  }

  lemma {:induction false} PendHead(g: Graph, qs: Queues, f: Edge)
    requires g.Valid() && f in g.succ && qs.Pq(f) != []
    ensures qs.Pend(g, f) != [] && qs.Pend(g, f)[0] == qs.Pq(f)[0]
    ensures qs.Pend(g, f)[1..] == qs.Pq(f)[1..] + qs.Sq(f) + qs.Buffered(f)
  {
  }

  /** Nothing that waits behind the first path of an ordered queue is better, unless unsatisfiable. */
  lemma {:induction false} OfferBound(g: Graph, q: seq<Item>, w: set<Trace>, bound: Value, declared: set<Trace>,
                                      weight: real, r: Value)
    requires QueueOk(g, q, w, bound, declared) && q != []
    requires AtMost(Plus(Rank(g, q[0]), weight), r)
    ensures AtMost(Plus(bound, weight), r)
    ensures r == NegInf ==> q == [NoPath] && w == {}
    ensures forall t :: t in w ==> r != NegInf && (Declared(declared, t) || AtMost(Finite(Cost(g, t) + weight), r))
  {
    if r == NegInf {
      assert q[0] == NoPath;
      assert q[1..] == [];
    }
    forall t | t in w ensures r != NegInf && (Declared(declared, t) || AtMost(Finite(Cost(g, t) + weight), r)) {
      var i := HoldsMember(q, w, t);
      assert AllDeclared(q[i], declared);
      if i > 0 {
        assert AtMost(Rank(g, q[i]), Rank(g, q[0]));
      }
    }
  }

  lemma {:induction false} ReadItem(g: Graph, keep: bool, qs: Queues, s: State, m: Edge, y: Item)
    requires QueuesOk(g, keep, qs, s) && m in g.succ && qs.Pq(m) != []
    requires Extends(qs.Pq(m)[0], m, y, s.declared)
    ensures var x := qs.Pq(m)[0];
      && MemberSet(x) <= s.Wait(m)
      && Extension(MemberSet(x), m, MemberSet(y))
      && NoRepeat(Members(y)) && y != Impossible([]) && AllDeclared(y, s.declared)
      && Rank(g, y) == Plus(Rank(g, x), Weight(g, m))
      && AtMost(Rank(g, y), s.Bound(g.succ[m]))
  {
    var x, q := qs.Pq(m)[0], qs.Pend(g, m);
    assert CursorOk(g, qs, s, m);
    PendHead(g, qs, m);
    assert q[0] == x && AllDeclared(q[0], s.declared);
    ExtendsMembers(x, m, y, s.declared);
    forall t | t in Members(x) ensures Walk(g, t, m.src) {
      assert m in Cursors(g) && InvCursor(g, s, m);
      assert t in MemberSet(x) && t in s.Wait(m) && t in s.Kept(m.src);
      assert InvKept(g, s, m.src, t);
    }
    ExtendsRank(g, x, m, y, s.declared);
  }

  lemma {:induction false} ReadOffer(g: Graph, qs: Queues, s: State, m: Edge, xs: set<Trace>, r: Value, f: Edge)
    requires g.Valid() && f in g.succ && CursorOk(g, qs, s, f) && Offer(g, qs, m, f)
    requires r == Plus(Rank(g, qs.Pq(m)[0]), Weight(g, m))
    ensures AtMost(Plus(s.Bound(f.src), Weight(g, f)), r)
    ensures forall t :: NoBetter(g, s, m, xs, r, f, t)
  {
    PendHead(g, qs, f);
    OfferBound(g, qs.Pend(g, f), s.Wait(f), s.Bound(f.src), s.declared, Weight(g, f), r);
  }

  lemma {:induction false} ReadCanMove(g: Graph, keep: bool, qs: Queues, s: State, m: Edge, y: Item, drop: bool)
    requires QueuesOk(g, keep, qs, s) && Best(g, qs, s.Bound(qs.node), m)
    requires Offer(g, qs, m, m) && Extends(qs.Pq(m)[0], m, y, s.declared)
    requires drop ==> !keep && y.Impossible?
    ensures CanMove(g, keep, s, m, MemberSet(qs.Pq(m)[0]), MemberSet(y), Rank(g, y), drop)
  {
    var xs, r := MemberSet(qs.Pq(m)[0]), Rank(g, y);
    ReadItem(g, keep, qs, s, m, y);
    forall f | f in g.succ && g.succ[f] == g.succ[m]
      ensures AtMost(Plus(s.Bound(f.src), Weight(g, f)), r) && forall t :: NoBetter(g, s, m, xs, r, f, t)
    {
      assert f in Cursors(g) && CursorOk(g, qs, s, f);
      ReadOffer(g, qs, s, m, xs, r, f);
    }
    if drop {
      forall t | t in MemberSet(y) ensures Declared(s.declared, t) {
        assert t in y.members;
      }
    }
  }

  // ---------------------------------------------------------------------------
  // What the step does to the three kinds of cursors

  lemma {:induction false} ReaderAfter(g: Graph, q: seq<Item>, w: set<Trace>, bound: Value, declared: set<Trace>,
                                       weight: real, r: Value)
    requires QueueOk(g, q, w, bound, declared) && q != []
    requires AtMost(Plus(Rank(g, q[0]), weight), r)
    requires q[0] == NoPath ==> r == NegInf
    requires bound == NegInf ==> r == NegInf || q[|q| - 1] == NoPath
    ensures QueueOk(g, q[1..], w - MemberSet(q[0]), bound, declared)
    ensures ReaderOk(g, q[1..], weight, bound, r)
  {
    forall i | 0 <= i < |q| - 1 ensures AtMost(Plus(Rank(g, q[1..][i]), weight), r) {
      assert AtMost(Rank(g, q[i + 1]), Rank(g, q[0]));
    }
    forall i | 0 <= i < |q| - 1 ensures AllDeclared(q[1..][i], declared) {
      assert AllDeclared(q[i + 1], declared);
    }
    if bound == NegInf && r != NegInf {
      assert |q| > 1;
    }
  }

  lemma {:induction false} OtherAfter(g: Graph, q: seq<Item>, w: set<Trace>, bound: Value, declared: set<Trace>,
                                      weight: real, old': Value, r: Value)
    requires QueueOk(g, q, w, bound, declared) && ReaderOk(g, q, weight, bound, old') && q != []
    requires AtMost(Plus(Rank(g, q[0]), weight), r) && old' != NegInf
    ensures ReaderOk(g, q, weight, bound, r)
  {
    forall i | 0 <= i < |q| ensures AtMost(Plus(Rank(g, q[i]), weight), r) {
      if i > 0 {
        assert AtMost(Rank(g, q[i]), Rank(g, q[0]));
      }
    }
  }

  lemma {:induction false} SourceAfter(g: Graph, q: seq<Item>, w: set<Trace>, bound: Value, declared: set<Trace>,
                                       y: Item)
    requires QueueOk(g, q, w, bound, declared) && bound != NegInf
    requires y != Impossible([]) && NoRepeat(Members(y)) && AllDeclared(y, declared)
    requires MemberSet(y) !! w && AtMost(Rank(g, y), bound)
    ensures QueueOk(g, q + [y], w + MemberSet(y), Rank(g, y), declared)
    ensures QueueOk(g, q, w, Rank(g, y), declared)
  {
    HoldsAppend(q, w, y);
    forall i | 0 <= i < |q| ensures q[i] != NoPath && AtMost(Rank(g, y), Rank(g, q[i])) {
      assert AtMost(bound, Rank(g, q[i]));
    }
  }

  lemma {:induction false} SourceReaderAfter(g: Graph, q: seq<Item>, bound: Value, y: Item, weight: real,
                                             target: Value)
    requires ReaderOk(g, q, weight, bound, target) && AtMost(Plus(bound, weight), target)
    requires AtMost(Rank(g, y), bound) && y != Impossible([])
    ensures ReaderOk(g, q + [y], weight, Rank(g, y), target)
    ensures y != NoPath ==> ReaderOk(g, q, weight, Rank(g, y), target)
  {
  }

  /** What remains to be read once `m` has given up its first path and `y` was buffered. */
  lemma {:induction false} PendAfter(g: Graph, merging: bool, qs: Queues, m: Edge, y: Item, drop: bool, e: Edge)
    requires g.Valid() && m in g.succ && qs.node == g.succ[m] && qs.Pq(m) != [] && e in Cursors(g)
    ensures
      var q, r := qs.Pend(g, e), Read(merging, qs, m, y, drop).Pend(g, e);
      if e == m then q != [] && q[0] == qs.Pq(m)[0] && r == q[1..]
      else if e.src != g.succ[m] || drop then r == q
      else r == (qs.Past(g, e) + qs.Pq(e) + qs.Sq(e)) + Push(merging, qs.buffer, [y])
  {
    var qs' := Read(merging, qs, m, y, drop);
    if e == m {
      PendHead(g, qs, m);
      assert qs'.Pend(g, m) == qs'.Pq(m) + qs'.Sq(m) + qs'.Buffered(m);
    } else {
      assert qs'.Past(g, e) == qs.Past(g, e) && qs'.Pq(e) == qs.Pq(e) && qs'.Sq(e) == qs.Sq(e);
    }
  }

  lemma {:induction false} MovedFacts(g: Graph, s: State, m: Edge, xs: set<Trace>, ys: set<Trace>, r: Value,
                                       drop: bool, s': State)
    requires g.Valid() && m in g.succ && Moved(g, s, m, xs, ys, r, drop, s')
    ensures s'.Bound(m.src) == s.Bound(m.src) && Target(g, s', m) == r
    ensures s'.Wait(m) == s.Wait(m) - xs && s'.declared == s.declared
  {
  }

  lemma {:induction false} CursorRead(g: Graph, keep: bool, merging: bool, qs: Queues, s: State, m: Edge,
                                      y: Item, drop: bool, s': State)
    requires QueuesOk(g, keep, qs, s) && Best(g, qs, s.Bound(qs.node), m)
    requires Offer(g, qs, m, m) && Extends(qs.Pq(m)[0], m, y, s.declared)
    requires Moved(g, s, m, MemberSet(qs.Pq(m)[0]), MemberSet(y), Rank(g, y), drop, s')
    ensures CursorOk(g, Read(merging, qs, m, y, drop), s', m)
  {
    ReadItem(g, keep, qs, s, m, y);
    PendAfter(g, merging, qs, m, y, drop, m);
    assert CursorOk(g, qs, s, m);
    MovedFacts(g, s, m, MemberSet(qs.Pq(m)[0]), MemberSet(y), Rank(g, y), drop, s');
    ReaderAfter(g, qs.Pend(g, m), s.Wait(m), s.Bound(m.src), s.declared, Weight(g, m), Rank(g, y));
  }

  lemma {:induction false} CursorBeside(g: Graph, keep: bool, merging: bool, qs: Queues, s: State, m: Edge,
                                        y: Item, drop: bool, s': State, e: Edge)
    requires QueuesOk(g, keep, qs, s) && Best(g, qs, s.Bound(qs.node), m)
    requires e in Cursors(g) && e != m && e.src != g.succ[m]
    requires Offer(g, qs, m, m) && Extends(qs.Pq(m)[0], m, y, s.declared)
    requires Moved(g, s, m, MemberSet(qs.Pq(m)[0]), MemberSet(y), Rank(g, y), drop, s')
    ensures CursorOk(g, Read(merging, qs, m, y, drop), s', e)
  {
    PendAfter(g, merging, qs, m, y, drop, e);
    assert CursorOk(g, qs, s, e);
    assert s'.Bound(e.src) == s.Bound(e.src) && s'.Wait(e) == s.Wait(e);
    if e in g.succ && g.succ[e] == g.succ[m] {
      ReadItem(g, keep, qs, s, m, y);
      assert Offer(g, qs, m, e);
      PendHead(g, qs, e);
      OtherAfter(g, qs.Pend(g, e), s.Wait(e), s.Bound(e.src), s.declared, Weight(g, e), s.Bound(g.succ[e]), Rank(g, y));
    }
  }

  lemma {:induction false} CursorOut(g: Graph, keep: bool, merging: bool, qs: Queues, s: State, m: Edge, y: Item,
                                     drop: bool, s': State, e: Edge)
    requires QueuesOk(g, keep, qs, s) && Best(g, qs, s.Bound(qs.node), m) && e in Cursors(g) && e.src == g.succ[m]
    requires Offer(g, qs, m, m) && Extends(qs.Pq(m)[0], m, y, s.declared)
    requires drop ==> y.Impossible?
    requires Moved(g, s, m, MemberSet(qs.Pq(m)[0]), MemberSet(y), Rank(g, y), drop, s')
    ensures CursorOk(g, Read(merging, qs, m, y, drop), s', e)
  {
    var q, u, ys := qs.Pend(g, e), g.succ[m], MemberSet(y);
    ReadItem(g, keep, qs, s, m, y);
    assert CursorOk(g, qs, s, e);
    assert ys !! s.Wait(e) by {
      assert InvCursor(g, s, e);
      forall t | t in ys ensures t !in s.Wait(e) {
        MovedNew(g, keep, s, m, MemberSet(qs.Pq(m)[0]), ys, t);
      }
    }
    SourceAfter(g, q, s.Wait(e), s.Bound(u), s.declared, y);
    assert InvCursor(g, s, e);
    SourceReaderAfter(g, q, s.Bound(u), y, Weight(g, e), Target(g, s, e));
    assert Target(g, s', e) == Target(g, s, e) by {
      if e in g.succ {
        assert s'.Bound(g.succ[e]) == s.Bound(g.succ[e]);
      }
    }
    PendAfter(g, merging, qs, m, y, drop, e);
    if !drop {
      CursorJoin(g, merging, qs, s.declared, y, e, s'.Wait(e), Rank(g, y), Weight(g, e), Target(g, s', e));
    }
  }

  lemma {:induction false} CursorJoin(g: Graph, merging: bool, qs: Queues, declared: set<Trace>, y: Item, e: Edge,
                                      w: set<Trace>, r: Value, weight: real, target: Value)
    requires e.src == qs.node
    requires QueueOk(g, qs.Pend(g, e) + [y], w, r, declared)
    ensures
      var q := (qs.Past(g, e) + qs.Pq(e) + qs.Sq(e)) + Push(merging, qs.buffer, [y]);
      && QueueOk(g, q, w, r, declared)
      && (ReaderOk(g, qs.Pend(g, e) + [y], weight, r, target) ==> ReaderOk(g, q, weight, r, target))
      && |q| <= |qs.Pend(g, e)| + 1
  {
    var p := qs.Past(g, e) + qs.Pq(e) + qs.Sq(e);
    var q := p + Push(merging, qs.buffer, [y]);
    assert p + qs.buffer + [y] + [] == qs.Pend(g, e) + [y];
    assert p + Push(merging, qs.buffer, [y]) + [] == q;
    PushInside(g, merging, qs.Pend(g, e) + [y], r, p, qs.buffer, [y], [], q);
    JoinedOk(g, qs.Pend(g, e) + [y], q, w, r, declared, weight, r, target);
  }

  /** The step keeps the queues consistent. */
  lemma {:induction false} ReadOk(g: Graph, keep: bool, merging: bool, qs: Queues, s: State, m: Edge, y: Item,
                                  drop: bool) returns (s': State)
    requires QueuesOk(g, keep, qs, s) && Best(g, qs, s.Bound(qs.node), m)
    requires Offer(g, qs, m, m) && Extends(qs.Pq(m)[0], m, y, s.declared)
    requires drop ==> !keep && y.Impossible?
    ensures QueuesOk(g, keep, Read(merging, qs, m, y, drop), s')
    ensures s'.declared == s.declared && s'.Bound(g.succ[m]) == Rank(g, y)
    ensures forall v: nat :: v != g.succ[m] ==> s'.Bound(v) == s.Bound(v)
    ensures forall v: nat {:trigger NoneRead(g, s, s', v)} :: v != g.succ[m] ==> NoneRead(g, s, s', v)
    ensures forall v: nat {:trigger DropsBy(g, s, s', v, 0)} :: v != g.succ[m] ==> DropsBy(g, s, s', v, 0)
    ensures DropsBy(g, s, s', g.succ[m], if drop then |MemberSet(y)| else 0)
    ensures ReadsOnly(g, s, s', MemberSet(qs.Pq(m)[0]))
  {
    var xs, ys, r := MemberSet(qs.Pq(m)[0]), MemberSet(y), Rank(g, y);
    s' := After(g, s, m, xs, ys, r, drop);
    AfterMoved(g, s, m, xs, ys, r, drop);
    AfterNoneRead(g, s, m, xs, ys, r, drop);
    AfterReadsOnly(g, s, m, xs, ys, r, drop);
    ReadCanMove(g, keep, qs, s, m, y, drop);
    Move(g, keep, s, m, xs, ys, r, drop, s');
    MovedDrops(g, keep, s, m, xs, ys, r, drop, s', g.succ[m]);
    forall v: nat | v != g.succ[m] ensures DropsBy(g, s, s', v, 0) {
      MovedDrops(g, keep, s, m, xs, ys, r, drop, s', v);
    }
    CursorsRead(g, keep, merging, qs, s, m, y, drop, s');
  }

  lemma {:induction false} CursorsRead(g: Graph, keep: bool, merging: bool, qs: Queues, s: State, m: Edge, y: Item,
                                       drop: bool, s': State)
    requires QueuesOk(g, keep, qs, s) && Best(g, qs, s.Bound(qs.node), m)
    requires Offer(g, qs, m, m) && Extends(qs.Pq(m)[0], m, y, s.declared)
    requires drop ==> y.Impossible?
    requires Moved(g, s, m, MemberSet(qs.Pq(m)[0]), MemberSet(y), Rank(g, y), drop, s')
    ensures forall e {:trigger CursorOk(g, Read(merging, qs, m, y, drop), s', e)} ::
              e in Cursors(g) ==> CursorOk(g, Read(merging, qs, m, y, drop), s', e)
  {
    forall e | e in Cursors(g) ensures CursorOk(g, Read(merging, qs, m, y, drop), s', e) {
      if e == m {
        CursorRead(g, keep, merging, qs, s, m, y, drop, s');
      } else if e.src == g.succ[m] {
        CursorOut(g, keep, merging, qs, s, m, y, drop, s', e);
      } else {
        CursorBeside(g, keep, merging, qs, s, m, y, drop, s', e);
      }
    }
  }

  /** Finding more prefixes unsatisfiable keeps the queues consistent. */
  lemma {:induction false} DeclareOk(g: Graph, keep: bool, qs: Queues, s: State, more: set<Trace>)
    requires QueuesOk(g, keep, qs, s) && s.declared <= more
    ensures QueuesOk(g, keep, qs, s.(declared := more))
  {
    Declare(g, keep, s, more);
    forall e | e in Cursors(g) ensures CursorOk(g, qs, s.(declared := more), e) {
      DeclareCursor(g, qs, s, more, e);
    }
  }

  lemma {:induction false} DeclareCursor(g: Graph, qs: Queues, s: State, more: set<Trace>, e: Edge)
    requires CursorOk(g, qs, s, e) && s.declared <= more
    ensures CursorOk(g, qs, s.(declared := more), e)
  {
    var q := qs.Pend(g, e);
    forall i | 0 <= i < |q| ensures AllDeclared(q[i], more) {
      assert AllDeclared(q[i], s.declared);
    }
  }
}
