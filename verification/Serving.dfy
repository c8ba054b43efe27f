/** Serving one demand of the enumeration: an edge asks the node it leaves for more paths. */
module Serving {
  import opened Dag
  import opened Streams
  import opened PathQueues
  import opened Reading
  import opened Potential

  const SIZE_MAX: nat := 0xFFFF_FFFF_FFFF_FFFF

  /** `path::size`. */
  function Size(x: Item): nat {
    match x
    case NoPath => SIZE_MAX
    case Possible(_) => 1
    case Impossible(ms) => |ms|
  }

  function Sum(q: seq<Item>): nat {
    if q == [] then 0 else Size(q[0]) + Sum(q[1..])
  }

  function Saturate(n: nat): nat { if n < SIZE_MAX then n else SIZE_MAX }

  /** `pathq::size`. */
  function Count(q: seq<Item>): nat { Saturate(Sum(q)) }

  /** The rank that the first path of `e` would have after its extension. */
  function FrontOf(g: Graph, qs: Queues, e: Edge): Value {
    Plus(if qs.Pq(e) == [] then NegInf else Rank(g, qs.Pq(e)[0]), Weight(g, e))
  }

  lemma {:induction false} SumAppend(a: seq<Item>, b: seq<Item>)
    ensures Sum(a + b) == Sum(a) + Sum(b)
  {
    if a == [] {
      assert a + b == b;
    } else {
      SumAppend(a[1..], b);
      assert (a + b)[1..] == a[1..] + b;
    }
  }

  function AllButLast(q: seq<Item>): seq<Item> { if q == [] then [] else q[..|q| - 1] }

  lemma {:induction false} SumPushAtMost(merging: bool, a: seq<Item>, b: seq<Item>)
    ensures Sum(Push(merging, a, b)) <= Sum(a) + Sum(b)
  {
    if a == [] || b == [] {
      SumAppend(a, b);
    } else {
      var i, r := a[..|a| - 1], b[1..];
      var z := Merge(merging, a[|a| - 1], b[0]);
      SumSplit(a);
      MergeSize(merging, a[|a| - 1], b[0]);
      SumAppend(i, z);
      SumAppend(i + z, r);
    }
  }

  lemma {:induction false} PushInit(merging: bool, a: seq<Item>, b: seq<Item>)
    requires |b| > 1
    ensures Push(merging, a, b) == Push(merging, a, b[..|b| - 1]) + [b[|b| - 1]]
  {
    assert b == b[..|b| - 1] + [b[|b| - 1]] && b[1..] == b[..|b| - 1][1..] + [b[|b| - 1]];
  }

  /** What comes last is at least the last object pushed. */
  lemma {:induction false} PushTight(merging: bool, a: seq<Item>, b: seq<Item>)
    requires b != []
    ensures Sum(AllButLast(Push(merging, a, b))) <= Sum(a) + Sum(AllButLast(b))
  {
    if |b| > 1 {
      PushInit(merging, a, b);
      SumPushAtMost(merging, a, b[..|b| - 1]);
      assert AllButLast(Push(merging, a, b)) == Push(merging, a, b[..|b| - 1]);
    } else if a != [] {
      PushOne(merging, a, b[0]);
      assert b == [b[0]];
    } else {
      assert a + b == b;
    }
  }

  lemma {:induction false} PushOne(merging: bool, a: seq<Item>, y: Item)
    requires a != []
    ensures Sum(AllButLast(Push(merging, a, [y]))) <= Sum(a)
  {
    var i, z := a[..|a| - 1], Merge(merging, a[|a| - 1], y);
    SumSplit(a);
    MergeSize(merging, a[|a| - 1], y);
    assert Push(merging, a, [y]) == i + z && AllButLast(i + z) == i + AllButLast(z);
    SumAppend(i, AllButLast(z));
  }

  lemma {:induction false} MergeSize(merging: bool, x: Item, y: Item)
    ensures var z := Merge(merging, x, y);
      z != [] && Sum(z) <= Size(x) + Size(y) && Sum(AllButLast(z)) <= Size(x)
  {
    var z := Merge(merging, x, y);
    if |z| == 2 {
      assert z == [x] + [y] && AllButLast(z) == [x];
      SumAppend([x], [y]);
      assert Sum([x]) == Size(x) && Sum([y]) == Size(y);
    } else {
      assert AllButLast(z) == [];
      assert Sum(z) == Size(z[0]) + Sum(z[1..]);
    }
  }

  lemma {:induction false} SumSplit(q: seq<Item>)
    requires q != []
    ensures Sum(q) == Sum(AllButLast(q)) + Size(q[|q| - 1])
  {
    assert q == AllButLast(q) + [q[|q| - 1]];
    SumAppend(AllButLast(q), [q[|q| - 1]]);
    assert Sum([q[|q| - 1]]) == Size(q[|q| - 1]);
  }

  /** Merging keeps the number of paths; only a repeated end marker is lost, and one remains. */
  lemma {:induction false} SumPush(merging: bool, a: seq<Item>, b: seq<Item>)
    ensures Sum(Push(merging, a, b)) == Sum(a) + Sum(b) || Sum(Push(merging, a, b)) >= SIZE_MAX
    ensures Count(Push(merging, a, b)) == Saturate(Count(a) + Count(b))
  {
    if a == [] || b == [] {
      SumAppend(a, b);
    } else {
      var i, x, y, r := a[..|a| - 1], a[|a| - 1], b[0], b[1..];
      var z := Merge(merging, x, y);
      assert a == i + [x] && b == [y] + r && Push(merging, a, b) == i + z + r;
      SumAppend(i, [x]);
      SumAppend([y], r);
      SumAppend(i, z);
      SumAppend(i + z, r);
      assert Sum([x]) == Size(x) && Sum([y]) == Size(y);
      if |z| == 2 {
        assert z == [x] + [y];
        SumAppend([x], [y]);
      }
    }
  }

  // ---------------------------------------------------------------------------
  // What stays the same while an edge is served

  ghost predicate SamePq(old': Queues, qs: Queues, f: Edge) { qs.Pq(f) == old'.Pq(f) }

  ghost predicate SameSq(old': Queues, qs: Queues, f: Edge) { qs.Sq(f) == old'.Sq(f) }

  /** Reading towards `u` leaves everything from `u` on untouched. */
  ghost predicate Within(old': Queues, qs: Queues, u: nat) {
    && qs.sq == old'.sq && qs.past == old'.past && qs.node == old'.node
    && (forall f: Edge {:trigger SamePq(old', qs, f)} :: f.src >= u ==> SamePq(old', qs, f))
  }

  /** Serving `e` touches later nodes not at all and only the sibling's queue beside it. */
  ghost predicate Beside(old': Queues, qs: Queues, e: Edge) {
    && (forall f: Edge {:trigger SamePq(old', qs, f)} :: f.src >= e.src && f != e ==> SamePq(old', qs, f))
    && (forall f: Edge {:trigger SameSq(old', qs, f)} :: f.src != e.src ==> SameSq(old', qs, f))
  }

  ghost predicate SameQueues(old': Queues, qs: Queues) {
    && (forall f: Edge {:trigger SamePq(old', qs, f)} :: SamePq(old', qs, f))
    && (forall f: Edge {:trigger SameSq(old', qs, f)} :: SameSq(old', qs, f))
  }

  ghost predicate SameBound(old': State, s: State, v: nat) { s.Bound(v) == old'.Bound(v) }

  /** Only towards `u` anything was read. */
  ghost predicate BoundsBut(g: Graph, old': State, s: State, u: nat) {
    && (forall v: nat {:trigger SameBound(old', s, v)} :: v != u ==> SameBound(old', s, v))
    && (forall v: nat {:trigger NoneRead(g, old', s, v)} :: v != u ==> NoneRead(g, old', s, v))
    && (forall v: nat {:trigger DropsBy(g, old', s, v, 0)} :: v != u ==> DropsBy(g, old', s, v, 0))
  }

  /** How many paths to `u` have been dropped since `old'`. */
  ghost function Lost(g: Graph, old': State, s: State, u: nat): int { Drops(g, s, u) - Drops(g, old', u) }

  /** `i` counts what `q` and `buffer` hold and the `d` paths that were dropped, and nothing was read but for a
  demand of `k` that had not been met. */
  ghost predicate Balanced(q: seq<Item>, buffer: seq<Item>, d: int, i: nat, k: nat) {
    && d >= 0 && (Count(q) + Sum(buffer) + d >= i || Sum(buffer) >= SIZE_MAX)
    && (i < k ==> Count(q) + Sum(buffer) + d <= i)
    && ((buffer == [] && d == 0) || Count(q) + Sum(AllButLast(buffer)) + d < k || Count(q) + Sum(buffer) < k)
  }

  /** With the `d` paths that were dropped `q` meets the demand, and without the last object read it would not. */
  ghost predicate Enough(q0: seq<Item>, q: seq<Item>, d: int, k: nat) {
    d >= 0 && Count(q) + d >= k && ((q == q0 && d == 0) || Tight(q, d, k))
  }

  /** The last object read, which is the last one of `q` or was dropped, was needed for the demand of `k`. */
  ghost predicate Tight(q: seq<Item>, d: int, k: nat) { Count(AllButLast(q)) + d < k || Count(q) < k }

  /** Every incoming edge of `u` holds enough paths to serve the demand of `k` on its own. */
  ghost predicate Supply(g: Graph, qs: Queues, u: nat, i: nat, k: nat) {
    forall f {:trigger Supplies(qs, f, i, k)} :: f in g.succ && g.succ[f] == u ==> Supplies(qs, f, i, k)
  }

  ghost predicate Supplies(qs: Queues, f: Edge, i: nat, k: nat) {
    Sum(qs.Pq(f)) + i >= k
  }

  ghost predicate Shape(g: Graph, qs: Queues) {
    qs.pq.Keys == Cursors(g) && qs.sq.Keys == g.succ.Keys
  }

  ghost predicate RunOk(g: Graph, keep: bool, qs: Queues, s: State) {
    QueuesOk(g, keep, qs, s) && Shape(g, qs)
  }

  // ---------------------------------------------------------------------------
  // Reading the best offers until the demand is met

  /** `i` paths have been counted towards the demand of `k` paths for the edge `e`. */
  ghost predicate Gathering(g: Graph, keep: bool, qs0: Queues, s0: State, qs: Queues, s: State, e: Edge, i: nat,
                            k: nat) {
    && Collecting(g, keep, qs0, s0, qs, s, e, i, k)
    && BoundsBut(g, s0, s, e.src) && Balanced(qs0.Pq(e), qs.buffer, Lost(g, s0, s, e.src), i, k)
  }

  ghost predicate Collecting(g: Graph, keep: bool, qs0: Queues, s0: State, qs: Queues, s: State, e: Edge, i: nat,
                             k: nat) {
    && RunOk(g, keep, qs, s) && e in Cursors(g) && k <= SIZE_MAX
    && Within(qs0, qs, e.src) && qs.node == e.src
    && i >= Count(qs0.Pq(e)) && (Count(qs0.Pq(e)) >= k ==> i == Count(qs0.Pq(e)))
    && (i < k ==> s.Bound(e.src) != NegInf && Supply(g, qs, e.src, i, k))
    && (if i == Count(qs0.Pq(e)) then qs == qs0 && s == s0 else Total(g, qs, g.size) < Total(g, qs0, g.size))
  }

  /** `m` is the edge that `q_with_longest_path` picks among those entering its target. */
  ghost predicate Longest(g: Graph, qs: Queues, m: Edge) {
    && m in g.succ
    && (forall f {:trigger FrontOf(g, qs, f)} ::
          f in g.succ && g.succ[f] == g.succ[m] ==> AtMost(FrontOf(g, qs, f), FrontOf(g, qs, m)))
  }

  lemma {:induction false} LongestIsBest(g: Graph, qs: Queues, bound: Value, m: Edge, i: nat, k: nat)
    requires i < k && bound != NegInf && Longest(g, qs, m) && qs.node == g.succ[m] && Supply(g, qs, qs.node, i, k)
    ensures Best(g, qs, bound, m) && Offer(g, qs, m, m)
  {
    assert Supplies(qs, m, i, k);
    forall f | f in g.succ && g.succ[f] == qs.node ensures Offer(g, qs, m, f) {
      assert Supplies(qs, f, i, k);
      assert AtMost(FrontOf(g, qs, f), FrontOf(g, qs, m));
    }
  }

  lemma {:induction false} SupplyStep(g: Graph, merging: bool, qs: Queues, m: Edge, y: Item, drop: bool, i: nat,
                                      j: nat, k: nat)
    requires m in g.succ && g.succ[m] == qs.node && qs.Pq(m) != [] && k <= SIZE_MAX
    requires Supply(g, qs, qs.node, i, k) && j == Saturate(i + Size(qs.Pq(m)[0])) < k
    ensures Supply(g, Read(merging, qs, m, y, drop), qs.node, j, k)
  {
    var qs' := Read(merging, qs, m, y, drop);
    forall f | f in g.succ && g.succ[f] == qs.node ensures Supplies(qs', f, j, k) {
      assert Supplies(qs, f, i, k);
      if f == m {
        assert Sum(qs.Pq(m)) == Size(qs.Pq(m)[0]) + Sum(qs.Pq(m)[1..]);
      }
    }
  }

  lemma {:induction false} WithinStep(g: Graph, merging: bool, qs0: Queues, qs: Queues, m: Edge, y: Item, drop: bool)
    requires g.Valid() && m in g.succ && g.succ[m] == qs.node && qs.Pq(m) != [] && Within(qs0, qs, qs.node)
    ensures Within(qs0, Read(merging, qs, m, y, drop), qs.node)
    ensures Shape(g, qs) ==> Shape(g, Read(merging, qs, m, y, drop))
  {
    var qs' := Read(merging, qs, m, y, drop);
    forall f: Edge | f.src >= qs.node ensures SamePq(qs0, qs', f) {
      assert SamePq(qs0, qs, f);
    }
  }

  lemma {:induction false} BufferStep(merging: bool, q: seq<Item>, buffer: seq<Item>, d: int, i: nat, k: nat, y: Item,
                                      d': int, drop: bool)
    requires Balanced(q, buffer, d, i, k) && i < k <= SIZE_MAX && d' == d + if drop then Size(y) else 0
    ensures Balanced(q, if drop then buffer else Push(merging, buffer, [y]), d', Saturate(i + Size(y)), k)
  {
    if !drop {
      SumPush(merging, buffer, [y]);
      SumPushAtMost(merging, buffer, [y]);
      PushTight(merging, buffer, [y]);
      assert Sum([y]) == Size(y) && AllButLast([y]) == [];
    }
  }

  lemma {:induction false} BoundsStep(g: Graph, s0: State, s: State, s1: State, s': State, u: nat)
    requires BoundsBut(g, s0, s, u) && BoundsBut(g, s1, s', u)
    requires s1.wait == s.wait && s1.kept == s.kept && s1.bound == s.bound
    ensures BoundsBut(g, s0, s', u)
  {
    forall v: nat | v != u ensures SameBound(s0, s', v) {
      assert SameBound(s0, s, v) && SameBound(s1, s', v);
    }
    forall v: nat | v != u ensures NoneRead(g, s0, s', v) {
      assert NoneRead(g, s0, s, v) && NoneRead(g, s1, s', v);
    }
    forall v: nat | v != u ensures DropsBy(g, s0, s', v, 0) {
      assert DropsBy(g, s0, s, v, 0) && DropsBy(g, s1, s', v, 0);
      DroppedSame(g, s, s1, v);
    }
  }

  lemma {:induction false} DroppedSame(g: Graph, s: State, s1: State, v: nat)
    requires s1.wait == s.wait && s1.kept == s.kept
    ensures Dropped(g, s1, v) == Dropped(g, s, v)
  {
    forall p ensures p in Dropped(g, s1, v) <==> p in Dropped(g, s, v) {
      DroppedIs(g, s, v, p);
      DroppedIs(g, s1, v, p);
    }
  }

  lemma {:induction false} GatherCount(g: Graph, merging: bool, s0: State, s: State, s1: State, s': State, u: nat,
                                       q: seq<Item>, buffer: seq<Item>, i: nat, k: nat, y: Item, drop: bool)
    requires BoundsBut(g, s0, s, u) && BoundsBut(g, s1, s', u)
    requires s1.wait == s.wait && s1.kept == s.kept && s1.bound == s.bound
    requires DropsBy(g, s1, s', u, if drop then Size(y) else 0)
    requires Balanced(q, buffer, Lost(g, s0, s, u), i, k) && i < k <= SIZE_MAX
    ensures BoundsBut(g, s0, s', u)
    ensures Balanced(q, if drop then buffer else Push(merging, buffer, [y]), Lost(g, s0, s', u), Saturate(i + Size(y)),
                     k)
  {
    BoundsStep(g, s0, s, s1, s', u);
    DroppedSame(g, s, s1, u);
    BufferStep(merging, q, buffer, Lost(g, s0, s, u), i, k, y, Lost(g, s0, s', u), drop);
  }

  lemma {:induction false} CollectStep(g: Graph, keep: bool, merging: bool, qs0: Queues, s0: State, qs: Queues,
                                       s: State, e: Edge, i: nat, k: nat, m: Edge, more: set<Trace>, y: Item,
                                       drop: bool, j: nat) returns (s': State)
    requires Collecting(g, keep, qs0, s0, qs, s, e, i, k) && i < k
    requires Longest(g, qs, m) && g.succ[m] == e.src
    requires qs.Pq(m) != [] ==> Extends(qs.Pq(m)[0], m, y, more) && j == Saturate(i + Size(qs.Pq(m)[0]))
    requires s.declared <= more && (drop ==> !keep && y.Impossible?)
    ensures qs.Pq(m) != [] && Size(y) == Size(qs.Pq(m)[0])
    ensures Collecting(g, keep, qs0, s0, Read(merging, qs, m, y, drop), s', e, j, k)
    ensures Total(g, Read(merging, qs, m, y, drop), g.size) < Total(g, qs, g.size)
    ensures s'.declared == more && BoundsBut(g, s.(declared := more), s', e.src)
    ensures DropsBy(g, s.(declared := more), s', e.src, if drop then Size(y) else 0)
  {
    var s1 := s.(declared := more);
    LongestIsBest(g, qs, s.Bound(qs.node), m, i, k);
    DeclareOk(g, keep, qs, s, more);
    s' := ReadStep(g, keep, merging, qs, s1, m, y, drop);
    WithinStep(g, merging, qs0, qs, m, y, drop);
    if j < k {
      SupplyStep(g, merging, qs, m, y, drop, i, j, k);
    }
  }

  /** One round of the inner loop of `next_k`. */
  lemma {:induction false} GatherStep(g: Graph, keep: bool, merging: bool, qs0: Queues, s0: State, qs: Queues,
                                      s: State, e: Edge, i: nat, k: nat, m: Edge, more: set<Trace>, y: Item,
                                      drop: bool, j: nat) returns (s': State)
    requires Gathering(g, keep, qs0, s0, qs, s, e, i, k) && i < k
    requires Longest(g, qs, m) && g.succ[m] == e.src
    requires qs.Pq(m) != [] ==> Extends(qs.Pq(m)[0], m, y, more) && j == Saturate(i + Size(qs.Pq(m)[0]))
    requires s.declared <= more && (drop ==> !keep && y.Impossible?)
    ensures qs.Pq(m) != []
    ensures Gathering(g, keep, qs0, s0, Read(merging, qs, m, y, drop), s', e, j, k)
    ensures Total(g, Read(merging, qs, m, y, drop), g.size) < Total(g, qs, g.size)
    ensures s'.declared == more
  {
    s' := CollectStep(g, keep, merging, qs0, s0, qs, s, e, i, k, m, more, y, drop, j);
    GatherCount(g, merging, s0, s, s.(declared := more), s', e.src, qs0.Pq(e), qs.buffer, i, k, y, drop);
  }

  /** One step with everything the loop needs to know about it. */
  lemma {:induction false} ReadStep(g: Graph, keep: bool, merging: bool, qs: Queues, s: State, m: Edge, y: Item,
                                    drop: bool) returns (s': State)
    requires QueuesOk(g, keep, qs, s) && Best(g, qs, s.Bound(qs.node), m) && Offer(g, qs, m, m)
    requires Extends(qs.Pq(m)[0], m, y, s.declared)
    requires drop ==> !keep && y.Impossible?
    ensures QueuesOk(g, keep, Read(merging, qs, m, y, drop), s')
    ensures Total(g, Read(merging, qs, m, y, drop), g.size) < Total(g, qs, g.size)
    ensures s'.declared == s.declared && BoundsBut(g, s, s', qs.node)
    ensures y != NoPath ==> s'.Bound(qs.node) != NegInf
    ensures Size(y) == Size(qs.Pq(m)[0]) >= 1
    ensures DropsBy(g, s, s', qs.node, if drop then Size(y) else 0)
    ensures ReadsOnly(g, s, s', MemberSet(qs.Pq(m)[0]))
  {
    NoRepeatSizeOf(g, keep, qs, s, m, y);
    ReadItem(g, keep, qs, s, m, y);
    ReadProgress(g, merging, qs, m, y, drop);
    s' := ReadOk(g, keep, merging, qs, s, m, y, drop);
  }

  lemma {:induction false} NoRepeatSizeOf(g: Graph, keep: bool, qs: Queues, s: State, m: Edge, y: Item)
    requires QueuesOk(g, keep, qs, s) && m in g.succ && qs.Pq(m) != [] && Extends(qs.Pq(m)[0], m, y, s.declared)
    ensures y.Impossible? ==> |MemberSet(y)| == Size(y)
  {
    ReadItem(g, keep, qs, s, m, y);
    NoRepeatSize(Members(y));
  }

  // ---------------------------------------------------------------------------
  // Handing the new paths out

  /** `e` has been served with the paths it had and those read for it. */
  ghost predicate Served(g: Graph, keep: bool, qs0: Queues, s0: State, qs: Queues, s: State, e: Edge, k: nat) {
    && RunOk(g, keep, qs, s) && qs.buffer == [] && qs.Sq(e) == []
    && Beside(qs0, qs, e) && qs.past == qs0.past && BoundsBut(g, s0, s, e.src)
    && Total(g, qs, g.size) <= Total(g, qs0, g.size)
    && (if Count(qs0.Pq(e)) >= k then SameQueues(qs0, qs) && s == s0 else Total(g, qs, g.size) < Total(g, qs0, g.size))
    && Enough(qs0.Pq(e), qs.Pq(e), Lost(g, s0, s, e.src), k)
  }

  lemma {:induction false} BoundsSame(g: Graph, s: State, u: nat)
    ensures BoundsBut(g, s, s, u)
  {
  }

  lemma {:induction false} SameElsewhere(g: Graph, keep: bool, qs: Queues, s: State, v: nat)
    requires RunOk(g, keep, qs, s) && qs.buffer == []
    ensures RunOk(g, keep, qs.(node := v), s)
    ensures Total(g, qs.(node := v), g.size) == Total(g, qs, g.size)
  {
    var qs' := qs.(node := v);
    forall f ensures qs'.Pend(g, f) == qs.Pend(g, f) && qs'.Pq(f) == qs.Pq(f) {
    }
    forall f | f in Cursors(g) ensures CursorOk(g, qs', s, f) {
      assert CursorOk(g, qs, s, f);
    }
    TotalShrinks(g, qs, qs', g.size);
    TotalShrinks(g, qs', qs, g.size);
  }

  lemma {:induction false} AtNode(g: Graph, keep: bool, qs: Queues, s: State, e: Edge, k: nat)
    requires RunOk(g, keep, qs, s) && qs.buffer == [] && e in Cursors(g) && k <= SIZE_MAX
    requires Count(qs.Pq(e)) < k ==> s.Bound(e.src) != NegInf && Supply(g, qs, e.src, Count(qs.Pq(e)), k)
    ensures var qs' := qs.(node := e.src); Gathering(g, keep, qs', s, qs', s, e, Count(qs'.Pq(e)), k)
    ensures Total(g, qs.(node := e.src), g.size) == Total(g, qs, g.size)
  {
    var qs' := qs.(node := e.src);
    SameElsewhere(g, keep, qs, s, e.src);
    BoundsSame(g, s, e.src);
    if Count(qs.Pq(e)) < k {
      forall f | f in g.succ && g.succ[f] == e.src ensures Supplies(qs', f, Count(qs.Pq(e)), k) {
        assert Supplies(qs, f, Count(qs.Pq(e)), k);
      }
    }
  }

  lemma {:induction false} FlushFrame(g: Graph, merging: bool, qs0: Queues, qs: Queues, e: Edge, sibling: bool)
    requires Within(qs0, qs, e.src) && qs0.Sq(e) == [] && Shape(g, qs) && e in Cursors(g)
    requires sibling <==> Edge(e.src, !e.taken) in g.succ
    ensures
      var qs' := Flush(merging, qs, e, sibling);
      Shape(g, qs') && Beside(qs0, qs', e) && qs'.Sq(e) == [] && qs'.past == qs0.past
  {
    var qs' := Flush(merging, qs, e, sibling);
    forall f: Edge | f.src >= e.src && f != e ensures SamePq(qs0, qs', f) {
      assert SamePq(qs0, qs, f);
    }
  }

  lemma {:induction false} FlushNothing(merging: bool, qs: Queues, e: Edge, sibling: bool)
    requires qs.buffer == [] && (sibling ==> Edge(e.src, !e.taken) in qs.sq)
    ensures SameQueues(qs, Flush(merging, qs, e, sibling))
  {
    var qs', o := Flush(merging, qs, e, sibling), Edge(e.src, !e.taken);
    assert Push(merging, qs.Pq(e), []) == qs.Pq(e) && Push(merging, qs.Sq(o), []) == qs.Sq(o);
    forall f: Edge ensures SamePq(qs, qs', f) && SameSq(qs, qs', f) {
    }
  }

  lemma {:induction false} HandOutCount(merging: bool, q: seq<Item>, buffer: seq<Item>, d: int, i: nat, k: nat)
    requires Balanced(q, buffer, d, i, k) && i >= k && k <= SIZE_MAX
    ensures Enough(q, Push(merging, q, buffer), d, k)
  {
    SumPush(merging, q, buffer);
    if buffer == [] {
      assert q + [] == q;
    } else {
      PushTight(merging, q, buffer);
    }
  }

  lemma {:induction false} HandOut(g: Graph, keep: bool, merging: bool, qs0: Queues, s0: State, qs: Queues,
                                   s: State, e: Edge, i: nat, k: nat, sibling: bool)
    requires Gathering(g, keep, qs0, s0, qs, s, e, i, k) && i >= k
    requires qs0.Sq(e) == [] && qs0.buffer == [] && (sibling <==> Edge(e.src, !e.taken) in g.succ)
    ensures Served(g, keep, qs0, s0, Flush(merging, qs, e, sibling), s, e, k)
  {
    var qs' := Flush(merging, qs, e, sibling);
    FlushOk(g, keep, merging, qs, s, e);
    FlushFrame(g, merging, qs0, qs, e, sibling);
    TotalShrinks(g, qs, qs', g.size);
    assert SamePq(qs0, qs, e);
    HandOutCount(merging, qs0.Pq(e), qs.buffer, Lost(g, s0, s, e.src), i, k);
    if Count(qs0.Pq(e)) >= k {
      FlushNothing(merging, qs, e, sibling);
    }
  }

  /** Which node the buffer belongs to does not matter while it is empty. */
  lemma {:induction false} ServedFrom(g: Graph, keep: bool, qs0: Queues, s0: State, qs: Queues, s: State,
                                      e: Edge, k: nat)
    requires Served(g, keep, qs0.(node := e.src), s0, qs, s, e, k)
    requires Total(g, qs0.(node := e.src), g.size) == Total(g, qs0, g.size)
    ensures Served(g, keep, qs0, s0, qs, s, e, k)
  {
    var qs1 := qs0.(node := e.src);
    assert qs1.Pq(e) == qs0.Pq(e);
    SameFrom(qs0, qs, e.src);
  }

  lemma {:induction false} SameFrom(qs0: Queues, qs: Queues, v: nat)
    ensures forall f: Edge {:trigger SamePq(qs0, qs, f)} {:trigger SamePq(qs0.(node := v), qs, f)} ::
              SamePq(qs0, qs, f) == SamePq(qs0.(node := v), qs, f)
    ensures forall f: Edge {:trigger SameSq(qs0, qs, f)} {:trigger SameSq(qs0.(node := v), qs, f)} ::
              SameSq(qs0, qs, f) == SameSq(qs0.(node := v), qs, f)
  {
  }
}
