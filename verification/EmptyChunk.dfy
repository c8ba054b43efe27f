/** A chunk of `next_k` without paths, although paths are left: `keep-impossible-paths` switched off. */
module EmptyChunk {
  import opened Dag
  import opened Streams
  import opened PathQueues
  import opened Reading
  import opened Serving
  import opened Guarantees
  import opened Enumeration
  import Interleave

  const LONG := Edge(0, true)
  const SHORT := Edge(0, false)

  /** An instruction and a branch, by their cycles: 3 for the branch if it is taken, and else 1. */
  function Fork(): Graph {
    Graph(2, 1, map[LONG := 1, SHORT := 1], [[], [LONG, SHORT]], 1.0, map[LONG := 3.0, SHORT := 1.0])
  }

  /** The solver finds that the branch is never taken. */
  function Verdict(t: Trace): set<Trace> { if t == [LONG] then {[LONG]} else {} }

  lemma {:induction false} ForkValid()
    ensures Fork().Valid()
  {
    forall v, e | 0 <= v < 2 ensures e in Fork().preds[v] <==> e in Fork().succ && Fork().succ[e] == v {
    }
  }

  lemma {:induction false} NothingLeft(t: Trace, w: set<Trace>)
    requires {t} - w == {}
    ensures t in w
  {
    assert t !in w ==> t in {t} - w;
  }

  /** A queue that holds one path begins with it. */
  lemma {:induction false} HoldsOne(g: Graph, q: seq<Item>, bound: Value, t: Trace)
    requires Holds(q, {t}) && Ordered(g, q, bound)
    ensures q != [] && Members(q[0]) == [t]
  {
    assert q != [] by {
      assert t in {t};
    }
    var ms, w := Members(q[0]), MemberSet(q[0]);
    assert Holds(q[1..], {t} - w);
    if |q| == 1 {
      assert q[1..] == [];
      NothingLeft(t, w);
    } else {
      assert q[0] != NoPath && q[0] != Impossible([]);
    }
    assert ms != [] && ms[0] in w;
    assert w == {t};
    NoRepeatSize(ms);
  }

  /** What waits first at an edge from the start. */
  lemma {:induction false} FirstWaits(g: Graph, keep: bool, qs: Queues, s: State, e: Edge)
    requires QueuesOk(g, keep, qs, s) && qs.buffer == [] && e in g.succ && e.src == 0 && qs.Pq(e) != []
    ensures Rank(g, qs.Pq(e)[0]) == NegInf || Rank(g, qs.Pq(e)[0]) == Finite(g.base)
    ensures [] in s.Wait(e) ==> Members(qs.Pq(e)[0]) == [[]]
  {
    assert e in Cursors(g) && CursorOk(g, qs, s, e) && InvCursor(g, s, e);
    var q := qs.Pend(g, e);
    assert qs.Past(g, e) == [] && qs.Buffered(e) == [];
    assert q == qs.Pq(e) + qs.Sq(e) && q[0] == qs.Pq(e)[0];
    if [] in s.Wait(e) {
      assert s.Wait(e) == {[]};
      HoldsOne(g, q, s.Bound(e.src), []);
    }
    FirstRank(g, q[0]);
  }

  lemma {:induction false} FirstRank(g: Graph, x: Item)
    requires MemberSet(x) <= {[]}
    ensures Rank(g, x) == NegInf || Rank(g, x) == Finite(g.base)
  {
    var ms := Members(x);
    if ms != [] {
      assert ms[|ms| - 1] in MemberSet(x);
    }
  }

  /** Of the two the longer one is read, and dropped. */
  lemma {:induction false} OneDropped(merging: bool, s0: State, out: seq<Item>, declared: set<Trace>)
    requires OneStep(Fork(), false, merging, Verdict, s0, out, declared) && [] in s0.Wait(LONG)
    requires Grounded(Verdict, {}, declared)
    ensures out == []
  {
    var qs :| ServedLast(Fork(), false, merging, Verdict, s0, qs, declared) && out == qs.Pq(Output(Fork()));
    var qs1, s1 :| Before(Fork(), false, s0, qs1, s1) && Supply(Fork(), qs1, 1, 0, 1)
                && ServedOnce(Fork(), false, merging, Verdict, qs1, qs, declared, Output(Fork()));
    Fronts(s0, qs1, s1);
    StepEmpty(merging, qs1, qs, declared);
  }

  /** Both edges offer the empty path, the longer one for certain. */
  lemma {:induction false} Fronts(s0: State, qs: Queues, s: State)
    requires Before(Fork(), false, s0, qs, s) && Supply(Fork(), qs, 1, 0, 1) && [] in s0.Wait(LONG)
    ensures Offered(qs)
  {
    assert Supplies(qs, LONG, 0, 1) && Supplies(qs, SHORT, 0, 1);
    assert s0.Wait(LONG) <= s.Wait(LONG);
    FirstWaits(Fork(), false, qs, s, LONG);
    FirstWaits(Fork(), false, qs, s, SHORT);
  }

  ghost predicate Offered(qs: Queues) {
    && qs.Pq(LONG) != [] && qs.Pq(SHORT) != [] && Members(qs.Pq(LONG)[0]) == [[]]
    && (Rank(Fork(), qs.Pq(SHORT)[0]) == NegInf || Rank(Fork(), qs.Pq(SHORT)[0]) == Finite(1.0))
    && qs.buffer == [] && qs.Pq(Output(Fork())) == []
  }

  lemma {:induction false} StepEmpty(merging: bool, qs1: Queues, qs: Queues, declared: set<Trace>)
    requires Offered(qs1) && Grounded(Verdict, {}, declared)
    requires ServedOnce(Fork(), false, merging, Verdict, qs1, qs, declared, Output(Fork()))
    ensures qs.Pq(Output(Fork())) == []
  {
    var o := Output(Fork());
    var mid :| ReadsOnce(Fork(), false, merging, Verdict, qs1.(node := o.src), mid, declared, o.src)
            && qs == Flush(merging, mid, o, Edge(o.src, !o.taken) in Fork().succ);
    var m, y :| TakesBest(Fork(), false, merging, Verdict, qs1.(node := o.src), mid, declared, o.src, m, y);
    LongFirst(qs1.(node := o.src), m);
    StepDrops(qs1.(node := o.src), y, declared);
  }

  lemma {:induction false} LongFirst(qs: Queues, m: Edge)
    requires Longest(Fork(), qs, m)
    requires Offered(qs)
    ensures m == LONG
  {
    var g := Fork();
    assert FrontOf(g, qs, LONG) == Finite(4.0);
    assert !AtMost(FrontOf(g, qs, LONG), FrontOf(g, qs, SHORT));
    assert m == LONG || m == SHORT;
  }

  lemma {:induction false} StepDrops(qs: Queues, y: Item, declared: set<Trace>)
    requires qs.Pq(LONG) != [] && Members(qs.Pq(LONG)[0]) == [[]] && Extends(qs.Pq(LONG)[0], LONG, y, declared)
    requires Asked(Verdict, qs.Pq(LONG)[0], LONG, declared) && Grounded(Verdict, {}, declared)
    ensures IsUnsat(y, declared)
  {
    OnlyLong(declared);
    assert [LONG][..1] == [LONG] && [] + [LONG] == [LONG];
  }

  /** Nothing else is found unsatisfiable. */
  lemma {:induction false} OnlyLong(declared: set<Trace>)
    requires Grounded(Verdict, {}, declared)
    ensures declared <= {[LONG]} && !Declared(declared, []) && !Declared(declared, [SHORT])
  {
    forall t | t in declared ensures t == [LONG] {
      assert t in declared - {};
      assert Blamed(Verdict, t);
    }
    assert [SHORT][..1] == [SHORT] && [LONG][0] != [SHORT][0];
  }

  /** The longer path turns out to be unsatisfiable, and asking for one path gives none; the shorter one, which is
  not, is still to come. */
  method NoPathYet(merging: bool) returns (en: Enumerator, out: seq<Item>)
    ensures en.g == Fork() && !en.keep && en.verdict == Verdict && en.Valid() && en.qs.past == out == []
    ensures !Finished(out) && Walk(Fork(), [SHORT], Fork().fin) && !Among(out, [SHORT])
    ensures !Declared(en.declared, [SHORT])
  {
    ForkValid();
    en := new Enumerator(Fork(), false, merging, Verdict);
    ghost var s0 := en.state;
    StartWaits(s0);
    out := en.NextK(1);
    OneDropped(merging, s0, out, en.declared);
    OnlyLong(en.declared);
    assert [SHORT][..0] == [];
  }

  lemma {:induction false} StartWaits(s: State)
    requires s == InitialState(Fork())
    ensures [] in s.Wait(LONG)
  {
    assert LONG in Cursors(Fork());
  }

  // What that means for the merging of two rankings.

  /** The path objects as the merging sees them. */
  function Rendered(out: seq<Item>, render: Item -> Interleave.Path): (r: seq<Interleave.Path>)
    ensures |r| == |out|
  {
    seq(|out|, i requires 0 <= i < |out| => render(out[i]))
  }

  /** A chunk that meets a demand, as `next_k` gives it when unsatisfiable paths are kept, leaves a limit that
  bounds the rest; an empty one does only if nothing above the least value is left. */
  lemma {:induction false} ChunkBounds(out: seq<Item>, k: nat, render: Item -> Interleave.Path, feed: Interleave.Feed,
                                       r: Interleave.Ranking)
    requires Interleave.Sorted(feed.stream, r) && feed.Next(Rendered(out, render))
    ensures Count(out) >= k > 0 ==>
      && Rendered(out, render) != []
      && Interleave.Bounds(Interleave.LimitOf(Rendered(out, render), r), feed.Deliver(Rendered(out, render)).Rest(), r)
    ensures out == [] ==>
      Interleave.Bounds(Interleave.LimitOf([], r), feed.Deliver([]).Rest(), r)
        == Interleave.Bounds(Interleave.LimitOf([], r), feed.Rest(), r)
  {
    Interleave.PullLimit(feed, r, Rendered(out, render));
  }
}
