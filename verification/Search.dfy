/** The explicit-stack search that decides which edge to serve next. */
module Search {
  import opened Dag
  import opened Streams
  import opened PathQueues
  import opened Potential
  import opened Serving

  /** An edge and the number of paths demanded for it. */
  datatype Frame = Frame(e: Edge, k: nat)

  /** A demand that waits until the edges below it have been served. */
  ghost predicate FrameOk(g: Graph, qs: Queues, s: State, f: Frame) {
    && f.e in Cursors(g) && qs.Sq(f.e) == [] && f.k <= SIZE_MAX
    && (Count(qs.Pq(f.e)) < f.k || (f.k == 0 && qs.Pq(f.e) == []))
    && s.Bound(f.e.src) != NegInf
  }

  /** Each demand was caused by the one below it on the stack, the first by the output. */
  ghost predicate Chain(g: Graph, stack: seq<Frame>, e: Edge) {
    && e in Cursors(g)
    && (if stack == [] then e == Output(g)
        else
          var top := stack[|stack| - 1].e;
          e in g.succ && g.succ[e] == top.src && Chain(g, stack[..|stack| - 1], top))
  }

  ghost predicate Frames(g: Graph, qs: Queues, s: State, stack: seq<Frame>) {
    forall i {:trigger FrameOk(g, qs, s, stack[i])} :: 0 <= i < |stack| ==> FrameOk(g, qs, s, stack[i])
  }

  ghost predicate Searching(g: Graph, keep: bool, qs: Queues, s: State, stack: seq<Frame>, e: Edge, k: nat) {
    && RunOk(g, keep, qs, s) && qs.buffer == []
    && Chain(g, stack, e) && Frames(g, qs, s, stack)
    && qs.Sq(e) == [] && k <= SIZE_MAX
    && (Count(qs.Pq(e)) < k ==> s.Bound(e.src) != NegInf)
  }

  /** Nothing has to be fetched before `e` can be served. */
  ghost predicate Servable(g: Graph, qs: Queues, e: Edge, k: nat) {
    Count(qs.Pq(e)) < k ==> Supply(g, qs, e.src, Count(qs.Pq(e)), k)
  }

  lemma {:induction false} ChainAbove(g: Graph, stack: seq<Frame>, e: Edge, i: nat)
    requires g.Valid() && Chain(g, stack, e) && i < |stack|
    ensures e.src < stack[i].e.src
  {
    var n := |stack| - 1;
    if i < n {
      ChainAbove(g, stack[..n], stack[n].e, i);
    }
  }

  /** The end marker of an exhausted source satisfies every demand. */
  lemma {:induction false} Exhausted(g: Graph, keep: bool, qs: Queues, s: State, e: Edge)
    requires QueuesOk(g, keep, qs, s) && e in g.succ && qs.Sq(e) == [] && qs.buffer == []
    requires s.Bound(g.succ[e]) != NegInf && s.Bound(e.src) == NegInf
    ensures Count(qs.Pq(e)) == SIZE_MAX
  {
    assert e in Cursors(g) && CursorOk(g, qs, s, e);
    var q := qs.Pq(e);
    assert e.src != g.fin && qs.Pend(g, e) == q;
    assert q == q[..|q| - 1] + [NoPath];
    SumAppend(q[..|q| - 1], [NoPath]);
    assert Sum([NoPath]) == SIZE_MAX;
  }

  function NonEmpty(qs: Queues): set<Edge> {
    set f | f in qs.sq && qs.sq[f] != []
  }

  lemma {:induction false} FramesKept(g: Graph, qs: Queues, s: State, qs': Queues, s': State, stack: seq<Frame>)
    requires Frames(g, qs, s, stack)
    requires forall i :: 0 <= i < |stack| ==>
      SamePq(qs, qs', stack[i].e) && SameSq(qs, qs', stack[i].e) && SameBound(s, s', stack[i].e.src)
    ensures Frames(g, qs', s', stack)
  {
    forall i | 0 <= i < |stack| ensures FrameOk(g, qs', s', stack[i]) {
      assert FrameOk(g, qs, s, stack[i]);
    }
  }

  lemma {:induction false} RefillFrame(g: Graph, merging: bool, qs: Queues, pr: Edge)
    requires Shape(g, qs) && pr in g.succ
    ensures var qs' := Refill(merging, qs, pr);
      && Shape(g, qs') && qs'.Sq(pr) == [] && qs'.buffer == qs.buffer && qs'.past == qs.past
      && NonEmpty(qs') == NonEmpty(qs) - {pr}
      && (pr !in NonEmpty(qs) ==> SameQueues(qs, qs'))
      && (forall f: Edge {:trigger SamePq(qs, qs', f)} {:trigger SameSq(qs, qs', f)} ::
            f != pr ==> SamePq(qs, qs', f) && SameSq(qs, qs', f))
  {
    RefillElsewhere(g, merging, qs, pr);
    var qs' := Refill(merging, qs, pr);
    assert Push(merging, qs.Pq(pr), []) == qs.Pq(pr);
    if pr !in NonEmpty(qs) {
      forall f: Edge ensures SamePq(qs, qs', f) && SameSq(qs, qs', f) {
      }
    }
  }

  lemma {:induction false} RefillElsewhere(g: Graph, merging: bool, qs: Queues, pr: Edge)
    requires Shape(g, qs) && pr in g.succ
    ensures var qs' := Refill(merging, qs, pr);
      && Shape(g, qs') && qs'.Sq(pr) == [] && NonEmpty(qs') == NonEmpty(qs) - {pr}
      && (forall f: Edge {:trigger SamePq(qs, qs', f)} {:trigger SameSq(qs, qs', f)} ::
            f != pr ==> SamePq(qs, qs', f) && SameSq(qs, qs', f))
  {
    var qs' := Refill(merging, qs, pr);
    forall f: Edge | f != pr ensures SamePq(qs, qs', f) && SameSq(qs, qs', f) {
    }
  }

  lemma {:induction false} DescendFrames(g: Graph, merging: bool, qs: Queues, s: State, stack: seq<Frame>,
                                         e: Edge, k: nat, pr: Edge)
    requires g.Valid() && Shape(g, qs) && Chain(g, stack, e)
    requires Frames(g, qs, s, stack) && FrameOk(g, qs, s, Frame(e, k))
    requires pr in g.succ && g.succ[pr] == e.src
    ensures Chain(g, stack + [Frame(e, k)], pr) && Frames(g, Refill(merging, qs, pr), s, stack + [Frame(e, k)])
  {
    var qs', stack' := Refill(merging, qs, pr), stack + [Frame(e, k)];
    RefillFrame(g, merging, qs, pr);
    assert stack'[..|stack|] == stack;
    forall i | 0 <= i < |stack'| ensures FrameOk(g, qs', s, stack'[i]) {
      if i < |stack| {
        assert FrameOk(g, qs, s, stack[i]);
      }
      ChainAbove(g, stack', pr, i);
      assert SamePq(qs, qs', stack'[i].e) && SameSq(qs, qs', stack'[i].e);
    }
  }

  /** One step down: `e` waits for `pr`, which first takes over what it already has a claim to. */
  lemma {:induction false} DescendOk(g: Graph, keep: bool, merging: bool, qs: Queues, s: State,
                                     stack: seq<Frame>, e: Edge, k: nat, pr: Edge)
    requires Searching(g, keep, qs, s, stack, e, k) && FrameOk(g, qs, s, Frame(e, k))
    requires pr in g.succ && g.succ[pr] == e.src
    ensures Count(qs.Pq(e)) <= k
    ensures Searching(g, keep, Refill(merging, qs, pr), s, stack + [Frame(e, k)], pr, k - Count(qs.Pq(e)))
    ensures Total(g, Refill(merging, qs, pr), g.size) <= Total(g, qs, g.size)
  {
    var qs' := Refill(merging, qs, pr);
    RefillOk(g, keep, merging, qs, s, pr);
    RefillFrame(g, merging, qs, pr);
    TotalShrinks(g, qs, qs', g.size);
    DescendFrames(g, merging, qs, s, stack, e, k, pr);
    if s.Bound(pr.src) == NegInf {
      Exhausted(g, keep, qs', s, pr);
    }
  }

  /** One step up: the served edge leaves the demands that wait for it as they were. */
  lemma {:induction false} AscendOk(g: Graph, keep: bool, qs0: Queues, s0: State, qs: Queues, s: State,
                                    stack: seq<Frame>, e: Edge, k: nat)
    requires Searching(g, keep, qs0, s0, stack, e, k) && Served(g, keep, qs0, s0, qs, s, e, k) && stack != []
    ensures var n := |stack| - 1;
      && Searching(g, keep, qs, s, stack[..n], stack[n].e, stack[n].k)
      && FrameOk(g, qs, s, stack[n])
  {
    var n := |stack| - 1;
    forall i | 0 <= i < |stack| ensures
      SamePq(qs0, qs, stack[i].e) && SameSq(qs0, qs, stack[i].e) && SameBound(s0, s, stack[i].e.src)
    {
      ChainAbove(g, stack, e, i);
    }
    FramesKept(g, qs0, s0, qs, s, stack);
    assert FrameOk(g, qs, s, stack[n]);
    forall i | 0 <= i < n ensures FrameOk(g, qs, s, stack[..n][i]) {
      assert FrameOk(g, qs, s, stack[i]);
    }
  }
}
