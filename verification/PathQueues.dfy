/** Path objects, the queues that hold them, and how the queues represent the streams. */
module PathQueues {
  import opened Dag
  import opened Streams

  /** The path objects: `path::none`, `path::possible` and `path::impossible`. The members of
  an `Impossible` are the unsatisfiable paths merged into it, the newest last; the program
  keeps their number and the state of the newest. */
  datatype Item = NoPath | Possible(trace: Trace) | Impossible(members: seq<Trace>)

  function Members(x: Item): seq<Trace> {
    match x
    case NoPath => []
    case Possible(t) => [t]
    case Impossible(ms) => ms
  }

  ghost function MemberSet(x: Item): set<Trace> { set t | t in Members(x) }

  /** The ranking value of a path object; a merged object ranks as its newest member. */
  function Rank(g: Graph, x: Item): Value {
    match x
    case NoPath => NegInf
    case Possible(t) => Finite(Cost(g, t))
    case Impossible(ms) => if ms == [] then NegInf else Finite(Cost(g, ms[|ms| - 1]))
  }

  ghost predicate NoRepeat(ms: seq<Trace>) {
    forall i, j :: 0 <= i < j < |ms| ==> ms[i] != ms[j]
  }

  /** The queue stands for exactly the paths `w`, each of them once. */
  ghost predicate Holds(q: seq<Item>, w: set<Trace>) {
    if q == [] then w == {}
    else NoRepeat(Members(q[0])) && MemberSet(q[0]) <= w && Holds(q[1..], w - MemberSet(q[0]))
  }

  /** A queue that reads a stream whose newest path ranks as `bound`. */
  ghost predicate Ordered(g: Graph, q: seq<Item>, bound: Value) {
    && (forall i :: 0 <= i < |q| ==> q[i] != Impossible([]) && AtMost(bound, Rank(g, q[i])))
    && (forall i, j :: 0 <= i < j < |q| ==> AtMost(Rank(g, q[j]), Rank(g, q[i])))
    && (forall i :: 0 <= i < |q| - 1 ==> q[i] != NoPath)
  }

  ghost predicate AllDeclared(x: Item, declared: set<Trace>) {
    x.Impossible? ==> forall t :: t in x.members ==> Declared(declared, t)
  }

  ghost predicate Unsatisfiable(q: seq<Item>, declared: set<Trace>) {
    forall i :: 0 <= i < |q| ==> AllDeclared(q[i], declared)
  }

  ghost predicate QueueOk(g: Graph, q: seq<Item>, w: set<Trace>, bound: Value, declared: set<Trace>) {
    Holds(q, w) && Ordered(g, q, bound) && Unsatisfiable(q, declared)
  }

  /** A queue whose reader's own stream has come down to `bound`; an exhausted source either
  still holds its end marker or has exhausted the reader. */
  ghost predicate ReaderOk(g: Graph, q: seq<Item>, weight: real, source: Value, bound: Value) {
    && (forall i :: 0 <= i < |q| ==> AtMost(Plus(Rank(g, q[i]), weight), bound))
    && (source == NegInf ==> bound == NegInf || (q != [] && q[|q| - 1] == NoPath))
  }

  // ---------------------------------------------------------------------------
  // pathq::push and the merging of path objects

  /** `x->merge(back)`: unsatisfiable neighbours and repeated end markers become one object. */
  function Merge(merging: bool, back: Item, x: Item): (r: seq<Item>) {
    if back == NoPath && x == NoPath then [NoPath]
    else if merging && back.Impossible? && x.Impossible? then [Impossible(back.members + x.members)]
    else [back, x]
  }

  function Push(merging: bool, a: seq<Item>, b: seq<Item>): seq<Item> {
    if a == [] || b == [] then a + b
    else a[..|a| - 1] + Merge(merging, a[|a| - 1], b[0]) + b[1..]
  }

  /** Two neighbours of a queue have been merged, or none. */
  ghost predicate Joined(q: seq<Item>, r: seq<Item>) {
    || q == r
    || exists i :: 0 <= i < |q| - 1 && JoinedAt(q, r, i)
  }

  ghost predicate JoinedAt(q: seq<Item>, r: seq<Item>, i: nat)
    requires i < |q| - 1
  {
    && q[i].Impossible? && q[i + 1].Impossible?
    && r == q[..i] + [Impossible(q[i].members + q[i + 1].members)] + q[i + 2..]
  }

  lemma {:induction false} PushPlain(merging: bool, a: seq<Item>, b: seq<Item>)
    requires a == [] || b == [] || |Merge(merging, a[|a| - 1], b[0])| == 2
    ensures Push(merging, a, b) == a + b
  {
  }

  lemma {:induction false} Slices(p: seq<Item>, a: seq<Item>, b: seq<Item>, c: seq<Item>)
    requires a != [] && b != []
    ensures
      var q, i := p + a + b + c, |p| + |a| - 1;
      && q[i] == a[|a| - 1] && q[i + 1] == b[0]
      && q[..i] == p + a[..|a| - 1] && q[i + 2..] == b[1..] + c
  {
    var q, i := p + a + b + c, |p| + |a| - 1;
    assert q == (p + a[..|a| - 1]) + ([a[|a| - 1]] + [b[0]] + b[1..] + c);
  }

  lemma {:induction false} PushJoins(merging: bool, p: seq<Item>, a: seq<Item>, b: seq<Item>, c: seq<Item>)
    requires a != [] && b != [] ==> a[|a| - 1] != NoPath
    ensures Joined(p + a + b + c, p + Push(merging, a, b) + c)
    ensures |Push(merging, a, b)| <= |a| + |b|
  {
    if a == [] || b == [] || |Merge(merging, a[|a| - 1], b[0])| == 2 {
      PushPlain(merging, a, b);
      assert p + (a + b) + c == p + a + b + c;
    } else {
      var q, i := p + a + b + c, |p| + |a| - 1;
      Slices(p, a, b, c);
      var z := [Impossible(q[i].members + q[i + 1].members)];
      assert Push(merging, a, b) == a[..|a| - 1] + z + b[1..];
      assert p + (a[..|a| - 1] + z + b[1..]) + c == (p + a[..|a| - 1]) + z + (b[1..] + c);
      assert JoinedAt(q, p + Push(merging, a, b) + c, i);
    }
  }

  lemma {:induction false} NoRepeatSize(ms: seq<Trace>)
    requires NoRepeat(ms)
    ensures |set t | t in ms| == |ms|
  {
    if ms != [] {
      var r := ms[1..];
      NoRepeatSize(r);
      assert (set t | t in ms) == {ms[0]} + set t | t in r;
      assert ms[0] !in r;
    }
  }

  lemma {:induction false} NoRepeatAppend(a: seq<Trace>, b: seq<Trace>)
    requires NoRepeat(a) && NoRepeat(b) && forall t :: t in b ==> t !in a
    ensures NoRepeat(a + b)
  {
    var c := a + b;
    forall i, j | 0 <= i < j < |c| ensures c[i] != c[j] {
      if i < |a| <= j {
        assert c[i] in a && c[j] in b;
      } else if |a| <= i {
        assert c[i] == b[i - |a|] && c[j] == b[j - |a|];
      }
    }
  }

  lemma {:induction false} HoldsJoined(q: seq<Item>, r: seq<Item>, i: nat, w: set<Trace>)
    requires i < |q| - 1 && JoinedAt(q, r, i) && Holds(q, w)
    ensures Holds(r, w)
  {
    if i == 0 {
      var x, y := q[0], q[1];
      assert q[1..][0] == y && q[1..][1..] == q[2..];
      forall t | t in y.members ensures t !in x.members {
        assert t in MemberSet(y);
      }
      NoRepeatAppend(x.members, y.members);
      var z := Impossible(x.members + y.members);
      assert r == [z] + q[2..];
      assert MemberSet(z) == MemberSet(x) + MemberSet(y);
      assert w - MemberSet(x) - MemberSet(y) == w - MemberSet(z);
    } else {
      assert r == [q[0]] + r[1..] && r[0] == q[0];
      assert q[1..][..i - 1] == q[1..i] && q[1..][i + 1..] == q[i + 2..];
      assert r[1..] == q[1..i] + [Impossible(q[i].members + q[i + 1].members)] + q[i + 2..];
      HoldsJoined(q[1..], r[1..], i - 1, w - MemberSet(q[0]));
    }
  }

  lemma {:induction false} OrderedJoined(g: Graph, q: seq<Item>, r: seq<Item>, i: nat, bound: Value,
                                         declared: set<Trace>)
    requires i < |q| - 1 && JoinedAt(q, r, i) && Ordered(g, q, bound) && Unsatisfiable(q, declared)
    ensures Ordered(g, r, bound) && Unsatisfiable(r, declared)
    ensures |r| == |q| - 1 && r[|r| - 1].NoPath? == q[|q| - 1].NoPath?
    ensures forall k :: 0 <= k < |r| ==> Rank(g, r[k]) == Rank(g, q[if k < i then k else k + 1])
  {
    var z := r[i];
    assert z.members == q[i].members + q[i + 1].members;
    assert z.members[|z.members| - 1] == q[i + 1].members[|q[i + 1].members| - 1];
    forall k | 0 <= k < |r| && k != i ensures r[k] == q[if k < i then k else k + 1] {
    }
    assert AllDeclared(q[i], declared) && AllDeclared(q[i + 1], declared);
  }

  lemma {:induction false} JoinedQueue(g: Graph, q: seq<Item>, r: seq<Item>, w: set<Trace>, bound: Value,
                                       declared: set<Trace>)
    requires QueueOk(g, q, w, bound, declared) && Joined(q, r)
    ensures QueueOk(g, r, w, bound, declared) && |r| <= |q|
  {
    if q != r {
      var i :| 0 <= i < |q| - 1 && JoinedAt(q, r, i);
      HoldsJoined(q, r, i, w);
      OrderedJoined(g, q, r, i, bound, declared);
    }
  }

  lemma {:induction false} JoinedReader(g: Graph, q: seq<Item>, r: seq<Item>, bound: Value, declared: set<Trace>,
                                        weight: real, source: Value, target: Value)
    requires Ordered(g, q, bound) && Unsatisfiable(q, declared) && Joined(q, r)
    requires ReaderOk(g, q, weight, source, target)
    ensures ReaderOk(g, r, weight, source, target)
  {
    if q != r {
      var i :| 0 <= i < |q| - 1 && JoinedAt(q, r, i);
      OrderedJoined(g, q, r, i, bound, declared);
    }
  }

  lemma {:induction false} JoinedOk(g: Graph, q: seq<Item>, r: seq<Item>, w: set<Trace>, bound: Value,
                                    declared: set<Trace>, weight: real, source: Value, target: Value)
    requires QueueOk(g, q, w, bound, declared) && Joined(q, r)
    ensures QueueOk(g, r, w, bound, declared) && |r| <= |q|
    ensures ReaderOk(g, q, weight, source, target) ==> ReaderOk(g, r, weight, source, target)
  {
    JoinedQueue(g, q, r, w, bound, declared);
    if ReaderOk(g, q, weight, source, target) {
      JoinedReader(g, q, r, bound, declared, weight, source, target);
    }
  }

  // ---------------------------------------------------------------------------
  // The queues of a graph

  /** pq and sq: the queues of `pred_data` and `succ_data`; past: what earlier calls returned;
  buffer: what the running call has produced for `node` and not yet handed to its outgoing edges. */
  datatype Queues = Queues(
    pq: map<Edge, seq<Item>>, sq: map<Edge, seq<Item>>, past: seq<Item>, node: nat, buffer: seq<Item>)
  {
    function Pq(e: Edge): seq<Item> { if e in pq then pq[e] else [] }
    function Sq(e: Edge): seq<Item> { if e in sq then sq[e] else [] }
    function Past(g: Graph, e: Edge): seq<Item> { if e == Output(g) then past else [] }
    function Buffered(e: Edge): seq<Item> { if e.src == node then buffer else [] }

    /** Everything the cursor `e` has not read yet. */
    function Pend(g: Graph, e: Edge): seq<Item> { Past(g, e) + Pq(e) + Sq(e) + Buffered(e) }
  }

  /** How far the reader behind a cursor has come down; nothing reads the output. */
  function Target(g: Graph, s: State, e: Edge): Value {
    if e in g.succ then s.Bound(g.succ[e]) else PosInf
  }

  ghost predicate CursorOk(g: Graph, qs: Queues, s: State, e: Edge) {
    && QueueOk(g, qs.Pend(g, e), s.Wait(e), s.Bound(e.src), s.declared)
    && ReaderOk(g, qs.Pend(g, e), Weight(g, e), s.Bound(e.src), Target(g, s, e))
  }

  ghost predicate QueuesOk(g: Graph, keep: bool, qs: Queues, s: State) {
    && Inv(g, keep, s)
    && (forall e {:trigger CursorOk(g, qs, s, e)} :: e in Cursors(g) ==> CursorOk(g, qs, s, e))
  }

  lemma {:induction false} Rejoin(g: Graph, keep: bool, qs: Queues, qs': Queues, s: State)
    requires QueuesOk(g, keep, qs, s)
    requires forall e :: e in Cursors(g) ==> Joined(qs.Pend(g, e), qs'.Pend(g, e))
    ensures QueuesOk(g, keep, qs', s)
  {
    forall e | e in Cursors(g) ensures CursorOk(g, qs', s, e) {
      assert CursorOk(g, qs, s, e);
      JoinedOk(g, qs.Pend(g, e), qs'.Pend(g, e), s.Wait(e), s.Bound(e.src), s.declared,
               Weight(g, e), s.Bound(e.src), Target(g, s, e));
    }
  }

  /** `qtake` followed by `push`: the edge takes over what its sibling demanded for it. */
  function Refill(merging: bool, qs: Queues, e: Edge): Queues {
    qs.(pq := qs.pq[e := Push(merging, qs.Pq(e), qs.Sq(e))], sq := if e in qs.sq then qs.sq[e := []] else qs.sq)
  }

  lemma {:induction false} NotLast(g: Graph, q: seq<Item>, bound: Value, a: seq<Item>, b: seq<Item>,
                                   c: seq<Item>, d: seq<Item>)
    requires Ordered(g, q, bound) && q == a + b + c + d
    requires b != [] && (c != [] || d != [])
    ensures b[|b| - 1] != NoPath
  {
    assert q[|a| + |b| - 1] == b[|b| - 1];
  }

  /** Appending a queue in the middle of what a cursor still has to read. */
  lemma {:induction false} PushInside(g: Graph, merging: bool, q: seq<Item>, bound: Value, a: seq<Item>,
                                      b: seq<Item>, c: seq<Item>, d: seq<Item>, r: seq<Item>)
    requires Ordered(g, q, bound) && q == a + b + c + d && r == a + Push(merging, b, c) + d
    ensures Joined(q, r) && |r| <= |q|
  {
    if b != [] && c != [] {
      NotLast(g, q, bound, a, b, c, d);
    }
    PushJoins(merging, a, b, c, d);
  }

  lemma {:induction false} RefillOk(g: Graph, keep: bool, merging: bool, qs: Queues, s: State, e: Edge)
    requires QueuesOk(g, keep, qs, s) && e in Cursors(g)
    ensures QueuesOk(g, keep, Refill(merging, qs, e), s)
    ensures forall f :: f in Cursors(g) ==> |Refill(merging, qs, e).Pend(g, f)| <= |qs.Pend(g, f)|
  {
    var qs' := Refill(merging, qs, e);
    forall f | f in Cursors(g)
      ensures Joined(qs.Pend(g, f), qs'.Pend(g, f)) && |qs'.Pend(g, f)| <= |qs.Pend(g, f)|
    {
      assert CursorOk(g, qs, s, f);
      RefillCursor(g, merging, qs, s.Bound(f.src), e, f);
    }
    Rejoin(g, keep, qs, qs', s);
  }

  lemma {:induction false} RefillPend(g: Graph, merging: bool, qs: Queues, e: Edge, f: Edge)
    ensures Refill(merging, qs, e).Pend(g, f)
      == if e == f then qs.Past(g, e) + Push(merging, qs.Pq(e), qs.Sq(e)) + qs.Buffered(e) else qs.Pend(g, f)
  {
    var qs' := Refill(merging, qs, e);
    assert qs'.Past(g, f) == qs.Past(g, f) && qs'.Buffered(f) == qs.Buffered(f);
    if e == f {
      assert qs'.Pq(e) == Push(merging, qs.Pq(e), qs.Sq(e)) && qs'.Sq(e) == [];
      assert qs'.Past(g, e) + qs'.Pq(e) + [] == qs'.Past(g, e) + qs'.Pq(e);
    } else {
      assert qs'.Pq(f) == qs.Pq(f) && qs'.Sq(f) == qs.Sq(f);
    }
  }

  lemma {:induction false} RefillCursor(g: Graph, merging: bool, qs: Queues, bound: Value, e: Edge, f: Edge)
    requires Ordered(g, qs.Pend(g, f), bound)
    ensures
      var q, r := qs.Pend(g, f), Refill(merging, qs, e).Pend(g, f);
      Joined(q, r) && |r| <= |q|
  {
    RefillPend(g, merging, qs, e, f);
    if e == f {
      PushInside(g, merging, qs.Pend(g, e), bound, qs.Past(g, e), qs.Pq(e), qs.Sq(e), qs.Buffered(e),
                 Refill(merging, qs, e).Pend(g, e));
    }
  }

  /** `qpush` on the sibling and `push` on the edge itself: both readers of the node get the new paths. */
  function Flush(merging: bool, qs: Queues, e: Edge, sibling: bool): Queues {
    var o := Edge(e.src, !e.taken);
    qs.(pq := qs.pq[e := Push(merging, qs.Pq(e), qs.buffer)],
        sq := if sibling then qs.sq[o := Push(merging, qs.Sq(o), qs.buffer)] else qs.sq,
        buffer := [])
  }

  lemma {:induction false} FlushOk(g: Graph, keep: bool, merging: bool, qs: Queues, s: State, e: Edge)
    requires QueuesOk(g, keep, qs, s) && e in Cursors(g) && qs.node == e.src && qs.Sq(e) == []
    ensures
      var qs' := Flush(merging, qs, e, Edge(e.src, !e.taken) in g.succ);
      QueuesOk(g, keep, qs', s) && forall f :: f in Cursors(g) ==> |qs'.Pend(g, f)| <= |qs.Pend(g, f)|
  {
    var qs' := Flush(merging, qs, e, Edge(e.src, !e.taken) in g.succ);
    forall f | f in Cursors(g)
      ensures Joined(qs.Pend(g, f), qs'.Pend(g, f)) && |qs'.Pend(g, f)| <= |qs.Pend(g, f)|
    {
      assert CursorOk(g, qs, s, f);
      Siblings(g, e, f);
      FlushCursor(g, merging, qs, s.Bound(f.src), e, f);
    }
    Rejoin(g, keep, qs, qs', s);
  }

  lemma {:induction false} Siblings(g: Graph, e: Edge, f: Edge)
    requires g.Valid() && e in Cursors(g) && f in Cursors(g)
    ensures e != f && f.src == e.src ==> f == Edge(e.src, !e.taken) && f in g.succ && f != Output(g)
  {
  }

  lemma {:induction false} FlushCursor(g: Graph, merging: bool, qs: Queues, bound: Value, e: Edge, f: Edge)
    requires qs.node == e.src && qs.Sq(e) == []
    requires e != f && f.src == e.src ==> f == Edge(e.src, !e.taken) && f in g.succ && f != Output(g)
    requires Ordered(g, qs.Pend(g, f), bound)
    ensures
      var q, r := qs.Pend(g, f), Flush(merging, qs, e, Edge(e.src, !e.taken) in g.succ).Pend(g, f);
      Joined(q, r) && |r| <= |q|
  {
    var qs' := Flush(merging, qs, e, Edge(e.src, !e.taken) in g.succ);
    if f == e {
      FlushShape(qs.Past(g, f), qs.Pq(f), qs.buffer, Push(merging, qs.Pq(f), qs.buffer));
      PushInside(g, merging, qs.Pend(g, f), bound, qs.Past(g, f), qs.Pq(f), qs.buffer, [], qs'.Pend(g, f));
    } else if f.src == e.src {
      FlushShape(qs.Pq(f), qs.Sq(f), qs.buffer, Push(merging, qs.Sq(f), qs.buffer));
      PushInside(g, merging, qs.Pend(g, f), bound, qs.Pq(f), qs.Sq(f), qs.buffer, [], qs'.Pend(g, f));
    } else {
      assert qs'.Pend(g, f) == qs.Pend(g, f);
    }
  }

  lemma {:induction false} FlushShape(a: seq<Item>, b: seq<Item>, c: seq<Item>, d: seq<Item>)
    ensures a + b + [] + c == a + b + c + [] == [] + a + b + c
    ensures a + d + [] + [] == a + d + [] == [] + a + d + []
  {
  }
}
