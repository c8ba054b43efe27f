/** Lazy enumeration of the longest paths (`cfg::next_k` and `cfg::push_impossible`). */
module Enumeration {
  import opened Dag
  import opened Streams
  import opened PathQueues
  import opened Reading
  import opened Potential
  import opened Serving
  import opened Search
  import opened Guarantees

  /** The prefixes blamed when the solver is asked about a path. */
  type Solver = Trace -> set<Trace>

  /** `path::is_unsat`. */
  predicate IsUnsat(x: Item, declared: set<Trace>) {
    x.Impossible? || (x.Possible? && Declared(declared, x.trace))
  }

  ghost predicate BeginOk(g: Graph, begin: seq<nat>) {
    |g.preds| == |begin| == g.size && forall v :: 0 < v < g.size ==> begin[v] < |g.preds[v]|
  }

  /** Closer to the end: less left to read, or fewer paths set aside for a sibling. */
  ghost predicate Closer(g: Graph, qs0: Queues, qs: Queues)
    requires g.Valid()
  {
    || Total(g, qs, g.size) < Total(g, qs0, g.size)
    || (Total(g, qs, g.size) == Total(g, qs0, g.size) && NonEmpty(qs) < NonEmpty(qs0))
  }

  /** The number of paths demanded for the output. */
  function Demand(stack: seq<Frame>, k: nat): nat {
    if stack == [] then k else stack[0].k
  }

  /** `e` has the shortest queue, of size `n`, of all edges into `v`; 0 stands for no such edge. */
  ghost predicate IsShortest(g: Graph, qs: Queues, v: nat, e: Edge, n: nat) {
    && v < |g.preds|
    && (g.preds[v] == [] ==> n == 0)
    && (g.preds[v] != [] ==> e in g.succ && g.succ[e] == v && n == Count(qs.Pq(e)))
    && (forall f {:trigger qs.Pq(f)} :: f in g.succ && g.succ[f] == v ==> n <= Count(qs.Pq(f)))
  }

  /** Everything found unsatisfiable was given, or blamed by an answer of the solver. */
  ghost predicate Grounded(verdict: Solver, given: set<Trace>, declared: set<Trace>) {
    forall t {:trigger Blamed(verdict, t)} :: t in declared - given ==> Blamed(verdict, t)
  }

  /** The state knows what was found, and the search where to begin. */
  ghost predicate Told(g: Graph, verdict: Solver, given: set<Trace>, declared: set<Trace>, begin: seq<nat>, s: State) {
    s.declared == declared && Grounded(verdict, given, declared) && BeginOk(g, begin)
  }

  ghost predicate Blamed(verdict: Solver, t: Trace) { exists u :: t in verdict(u) }

  /** The solver was asked about the path that goes on over `m`. */
  predicate Asked(verdict: Solver, x: Item, m: Edge, declared: set<Trace>) {
    x.Possible? && !Declared(declared, x.trace) ==> verdict(x.trace + [m]) <= declared
  }

  // One demand for one path.

  /** `m` offers a best path to `u`, which goes on as `y`. */
  ghost predicate Chosen(g: Graph, verdict: Solver, qs: Queues, declared: set<Trace>, u: nat, m: Edge, y: Item) {
    && Longest(g, qs, m) && g.succ[m] == u && qs.Pq(m) != []
    && Extends(qs.Pq(m)[0], m, y, declared) && (IsUnsat(y, declared) ==> y.Impossible?)
    && Asked(verdict, qs.Pq(m)[0], m, declared)
  }

  /** It is read; an unsatisfiable one may be dropped. */
  ghost predicate TakesBest(g: Graph, keep: bool, merging: bool, verdict: Solver, qs0: Queues, qs: Queues,
                            declared: set<Trace>, u: nat, m: Edge, y: Item) {
    && Chosen(g, verdict, qs0, declared, u, m, y)
    && qs == Read(merging, qs0, m, y, !keep && IsUnsat(y, declared))
  }

  ghost predicate ReadsOnce(g: Graph, keep: bool, merging: bool, verdict: Solver, qs0: Queues, qs: Queues,
                            declared: set<Trace>, u: nat) {
    exists m, y :: TakesBest(g, keep, merging, verdict, qs0, qs, declared, u, m, y)
  }

  lemma {:induction false} TookOk(g: Graph, keep: bool, merging: bool, verdict: Solver, qs0: Queues, s0: State,
                                  qs: Queues, s: State, e: Edge, i: nat, k: nat, m: Edge, declared: set<Trace>, y: Item,
                                  next: Queues, j: nat) returns (s': State)
    requires Gathering(g, keep, qs0, s0, qs, s, e, i, k) && i < k && s.declared <= declared
    requires Chosen(g, verdict, qs, declared, e.src, m, y) && j == Saturate(i + Size(qs.Pq(m)[0]))
    requires next == Read(merging, qs, m, y, !keep && IsUnsat(y, declared))
    ensures Gathering(g, keep, qs0, s0, next, s', e, j, k) && Total(g, next, g.size) < Total(g, qs, g.size)
    ensures ReadsOnce(g, keep, merging, verdict, qs, next, declared, e.src) && s'.declared == declared
  {
    s' := GatherStep(g, keep, merging, qs0, s0, qs, s, e, i, k, m, declared, y, !keep && IsUnsat(y, declared), j);
    assert TakesBest(g, keep, merging, verdict, qs, next, declared, e.src, m, y);
  }

  /** Every edge into `u` has something to offer. */
  ghost predicate Stocked(g: Graph, qs: Queues, u: nat) {
    0 < u < g.size && forall f :: f in g.succ && g.succ[f] == u ==> qs.Pq(f) != []
  }

  lemma {:induction false} SupplyStocked(g: Graph, qs: Queues, s: State, e: Edge, i: nat, k: nat)
    requires g.Valid() && e in Cursors(g) && s.Bound(0) == NegInf != s.Bound(e.src)
    requires Supply(g, qs, e.src, i, k) && i < k
    ensures Stocked(g, qs, e.src)
  {
    forall f | f in g.succ && g.succ[f] == e.src ensures qs.Pq(f) != [] {
      assert Supplies(qs, f, i, k);
    }
  }

  /** `e` is served by one such step. */
  ghost predicate ServedOnce(g: Graph, keep: bool, merging: bool, verdict: Solver, qs0: Queues, qs: Queues,
                             declared: set<Trace>, e: Edge) {
    exists mid :: ReadsOnce(g, keep, merging, verdict, qs0.(node := e.src), mid, declared, e.src)
               && qs == Flush(merging, mid, e, Edge(e.src, !e.taken) in g.succ)
  }

  /** Nothing was read towards the final node, and nothing came out. */
  ghost predicate Quiet(g: Graph, qs0: Queues, s0: State, qs: Queues, s: State) {
    NoneRead(g, s0, s, g.fin) && DropsBy(g, s0, s, g.fin, 0) && SamePq(qs0, qs, Output(g))
  }

  /** With the paths dropped since `s0` the output meets the demand, and without the last object read it would not. */
  ghost predicate Answers(g: Graph, s0: State, s: State, out: seq<Item>, k: nat) {
    Enough([], out, Lost(g, s0, s, g.fin), k)
  }

  lemma {:induction false} AnswersFrom(g: Graph, s0: State, s1: State, s: State, out: seq<Item>, k: nat)
    requires DropsBy(g, s0, s1, g.fin, 0) && Answers(g, s1, s, out, k)
    ensures Answers(g, s0, s, out, k)
  {
  }

  lemma {:induction false} NoneReadTrans(g: Graph, s0: State, s1: State, s: State, v: nat)
    requires NoneRead(g, s0, s1, v) && NoneRead(g, s1, s, v)
    ensures NoneRead(g, s0, s, v)
  {
    forall f | f in g.succ && g.succ[f] == v ensures s0.Wait(f) <= s.Wait(f) {
      assert s0.Wait(f) <= s1.Wait(f) <= s.Wait(f);
    }
  }

  /** Only unsatisfiable paths are dropped, and none if such paths are kept. */
  lemma {:induction false} NoneDropped(g: Graph, keep: bool, s: State)
    requires Inv(g, keep, s) && (keep || forall t :: Walk(g, t, g.fin) ==> !Declared(s.declared, t))
    ensures Drops(g, s, g.fin) == 0
  {
    if p :| p in Dropped(g, s, g.fin) {
      DroppedAre(g, keep, s, g.fin, p);
    }
  }

  lemma {:induction false} QuietSelf(g: Graph, qs: Queues, s: State)
    ensures Quiet(g, qs, s, qs, s)
  {
  }

  lemma {:induction false} QuietTrans(g: Graph, qs0: Queues, s0: State, qs1: Queues, s1: State, qs: Queues, s: State)
    requires Quiet(g, qs0, s0, qs1, s1) && Quiet(g, qs1, s1, qs, s)
    ensures Quiet(g, qs0, s0, qs, s)
  {
    NoneReadTrans(g, s0, s1, s, g.fin);
  }

  /** A consistent state between two demands, with nothing read towards the final node since `s0`. */
  ghost predicate Before(g: Graph, keep: bool, s0: State, qs: Queues, s: State) {
    RunOk(g, keep, qs, s) && qs.buffer == [] && NoneRead(g, s0, s, g.fin) && qs.Pq(Output(g)) == []
  }

  /** The output is served last. */
  ghost predicate ServedLast(g: Graph, keep: bool, merging: bool, verdict: Solver, s0: State, qs: Queues,
                             declared: set<Trace>) {
    exists qs1, s1 :: Before(g, keep, s0, qs1, s1) && Supply(g, qs1, g.fin, 0, 1)
                   && ServedOnce(g, keep, merging, verdict, qs1, qs, declared, Output(g))
  }

  /** `out` is what one step at the final node leaves there. */
  ghost predicate OneStep(g: Graph, keep: bool, merging: bool, verdict: Solver, s0: State, out: seq<Item>,
                          declared: set<Trace>) {
    exists qs :: ServedLast(g, keep, merging, verdict, s0, qs, declared) && out == qs.Pq(Output(g))
  }

  /** What the solver's answer adds; it is not asked about what is known to be unsatisfiable. */
  function Verdict(verdict: Solver, declared: set<Trace>, x: Item, m: Edge): set<Trace> {
    if x.Possible? && !Declared(declared, x.trace) then verdict(x.trace + [m]) else {}
  }

  lemma {:induction false} GroundedMore(verdict: Solver, given: set<Trace>, declared: set<Trace>, u: Trace)
    requires Grounded(verdict, given, declared)
    ensures Grounded(verdict, given, declared + verdict(u))
  {
    forall t | t in verdict(u) ensures Blamed(verdict, t) {
    }
  }

  class Enumerator {
    const g: Graph
    const keep: bool               // keep-impossible-paths
    const merging: bool            // impossible-path-merging
    const verdict: Solver

    var qs: Queues                 // the queues of all edges, and everything returned so far
    var begin: seq<nat>       // pred_begin of each node
    var declared: set<Trace>       // prefixes found unsatisfiable
    ghost var state: State         // what the queues stand for
    ghost var given: set<Trace>    // prefixes found unsatisfiable outside the search

    ghost predicate Running()
      reads this
    {
      RunOk(g, keep, qs, state) && Told(g, verdict, given, declared, begin, state)
    }

    ghost predicate Valid()
      reads this
    {
      Running() && qs.buffer == [] && qs.Pq(Output(g)) == []
    }

    /** `node::shortest_q`: one of the shortest queues, and its size. */
    method Shortest(v: nat) returns (e: Edge, n: nat)
      requires g.Valid() && v < g.size
      ensures IsShortest(g, qs, v, e, n)
    {
      var ps := g.preds[v];
      if ps == [] {
        return Edge(v, true), 0;
      }
      e, n := ps[0], Count(qs.Pq(ps[0]));
      for i := 1 to |ps|
        invariant e in ps && n == Count(qs.Pq(e))
        invariant forall j :: 0 <= j < i ==> n <= Count(qs.Pq(ps[j]))
      {
        if Count(qs.Pq(ps[i])) < n {
          e, n := ps[i], Count(qs.Pq(ps[i]));
        }
      }
      forall f | f in g.succ && g.succ[f] == v ensures n <= Count(qs.Pq(f)) {
        assert f in ps;
      }
    }

    /** `node::q_with_longest_path`: searches from a rotating first edge for the best first path. */
    method LongestPred(v: nat) returns (m: Edge)
      requires g.Valid() && 0 < v < g.size && BeginOk(g, begin)
      modifies this`begin
      ensures Longest(g, qs, m) && g.succ[m] == v
      ensures BeginOk(g, begin)
    {
      var ps, b := g.preds[v], begin[v];
      var l := b;
      for i := b + 1 to |ps|
        invariant b <= l < |ps|
        invariant forall j :: b <= j < i ==> AtMost(FrontOf(g, qs, ps[j]), FrontOf(g, qs, ps[l]))
      {
        if !AtMost(FrontOf(g, qs, ps[i]), FrontOf(g, qs, ps[l])) {
          l := i;
        }
      }
      for i := 0 to b
        invariant 0 <= l < |ps|
        invariant forall j :: b <= j < |ps| || 0 <= j < i ==> AtMost(FrontOf(g, qs, ps[j]), FrontOf(g, qs, ps[l]))
      {
        if !AtMost(FrontOf(g, qs, ps[i]), FrontOf(g, qs, ps[l])) {
          l := i;
        }
      }
      m := ps[l];
      begin := begin[v := if l + 1 == |ps| then 0 else l + 1];
      forall f | f in g.succ && g.succ[f] == v ensures AtMost(FrontOf(g, qs, f), FrontOf(g, qs, m)) {
        assert f in ps;
      }
    }

    /** `extend`: the solver may be asked about the extended path, and its answer may condemn any
    number of prefixes (`apply_unsat_core`). */
    method Extend(x: Item, m: Edge) returns (y: Item)
      requires Grounded(verdict, given, declared)
      modifies this`declared
      ensures Grounded(verdict, given, declared) && Asked(verdict, x, m, declared)
      ensures declared == old(declared) + Verdict(verdict, old(declared), x, m)
      ensures Extends(x, m, y, declared)
      ensures IsUnsat(y, declared) ==> y.Impossible?
    {
      match x
      case NoPath =>
        y := NoPath;
      case Impossible(ms) =>
        y := Impossible(Extended(ms, m));
      case Possible(t) =>
        if !Declared(declared, t) {
          GroundedMore(verdict, given, declared, t + [m]);
          declared := declared + verdict(t + [m]);
        } else {
          DeclaredExtend(declared, t, m);
        }
        y := if Declared(declared, t + [m]) then Impossible([t + [m]]) else Possible(t + [m]);
    }

    /** The inner loop of `next_k` and what follows it: `e` is served with up to `k` paths, and both
    readers of its source receive the new ones. */
    method Fulfil(e: Edge, k: nat)
      requires Running() && qs.buffer == [] && e in Cursors(g) && qs.Sq(e) == [] && k <= SIZE_MAX
      requires Count(qs.Pq(e)) < k ==> state.Bound(e.src) != NegInf && Supply(g, qs, e.src, Count(qs.Pq(e)), k)
      modifies this`qs, this`begin, this`declared, this`state
      ensures Running() && Served(g, keep, old(qs), old(state), qs, state, e, k) && old(declared) <= declared
      ensures k == Count(old(qs).Pq(e)) + 1 ==> ServedOnce(g, keep, merging, verdict, old(qs), qs, declared, e)
    {
      AtNode(g, keep, qs, state, e, k);
      ghost var qs0, s0 := qs, state;
      qs := qs.(node := e.src);
      var i := Gather(e, k, qs, state);
      var sibling := Edge(e.src, !e.taken) in g.succ;
      HandOut(g, keep, merging, qs0.(node := e.src), s0, qs, state, e, i, k, sibling);
      qs := Flush(merging, qs, e, sibling);
      ServedFrom(g, keep, qs0, s0, qs, state, e, k);
    }

    method Gather(e: Edge, k: nat, ghost qs0: Queues, ghost s0: State) returns (i: nat)
      requires qs == qs0 && Gathering(g, keep, qs, s0, qs, state, e, Count(qs.Pq(e)), k)
      requires Told(g, verdict, given, declared, begin, state)
      modifies this`qs, this`begin, this`declared, this`state
      ensures Gathering(g, keep, qs0, s0, qs, state, e, i, k) && i >= k
      ensures Told(g, verdict, given, declared, begin, state) && old(declared) <= declared
      ensures k == Count(qs0.Pq(e)) + 1 ==> ReadsOnce(g, keep, merging, verdict, qs0, qs, declared, e.src)
    {
      i := Count(qs.Pq(e));
      while i < k
        invariant Gathering(g, keep, qs0, s0, qs, state, e, i, k)
        invariant i > Count(qs0.Pq(e)) && k == Count(qs0.Pq(e)) + 1 ==>
                    ReadsOnce(g, keep, merging, verdict, qs0, qs, declared, e.src)
        invariant Told(g, verdict, given, declared, begin, state) && old(declared) <= declared
        decreases Total(g, qs, g.size)
      {
        i := FulfilOnce(e, i, k, qs0, s0);
      }
    }

    method FulfilOnce(e: Edge, i: nat, k: nat, ghost qs0: Queues, ghost s0: State) returns (j: nat)
      requires Gathering(g, keep, qs0, s0, qs, state, e, i, k) && i < k
      requires Told(g, verdict, given, declared, begin, state)
      modifies this`qs, this`begin, this`declared, this`state
      ensures Gathering(g, keep, qs0, s0, qs, state, e, j, k)
      ensures Told(g, verdict, given, declared, begin, state) && old(declared) <= declared
      ensures Total(g, qs, g.size) < Total(g, old(qs), g.size)
      ensures k == Count(qs0.Pq(e)) + 1 ==> ReadsOnce(g, keep, merging, verdict, old(qs), qs, declared, e.src)
    {
      var next;
      ghost var s;
      next, j, s := Offer(e, i, k, qs0, s0);
      Replace(next, s);
    }

    method Replace(next: Queues, ghost s: State)
      modifies this`qs, this`state
      ensures qs == next && state == s
    {
      qs, state := next, s;
    }

    /** The best path offered to the source of `e` goes on over its edge. */
    method Offer(e: Edge, i: nat, k: nat, ghost qs0: Queues, ghost s0: State) returns (next: Queues, j: nat,
                 ghost s: State)
      requires Gathering(g, keep, qs0, s0, qs, state, e, i, k) && i < k
      requires Told(g, verdict, given, declared, begin, state)
      modifies this`begin, this`declared
      ensures Gathering(g, keep, qs0, s0, next, s, e, j, k) && Total(g, next, g.size) < Total(g, qs, g.size)
      ensures k == Count(qs0.Pq(e)) + 1 ==> ReadsOnce(g, keep, merging, verdict, qs, next, declared, e.src)
      ensures Told(g, verdict, given, declared, begin, s) && old(declared) <= declared
    {
      SupplyStocked(g, qs, state, e, i, k);
      var m, y := Choose(e.src);
      next, j := Read(merging, qs, m, y, !keep && IsUnsat(y, declared)), Saturate(i + Size(qs.Pq(m)[0]));
      s := TookOk(g, keep, merging, verdict, qs0, s0, qs, state, e, i, k, m, declared, y, next, j);
    }

    /** The best path offered to `u`, and how it goes on. */
    method Choose(u: nat) returns (m: Edge, y: Item)
      requires g.Valid() && Stocked(g, qs, u) && Grounded(verdict, given, declared) && BeginOk(g, begin)
      modifies this`begin, this`declared
      ensures Chosen(g, verdict, qs, declared, u, m, y)
      ensures Grounded(verdict, given, declared) && BeginOk(g, begin) && old(declared) <= declared
    {
      m := LongestPred(u);
      y := Extend(qs.Pq(m)[0], m);
    }

    /** The first inner loop of `next_k`: goes up along the shortest queues until one can be served. */
    method Descend(e0: Edge, k0: nat, stack0: seq<Frame>, pr0: Edge) returns (e: Edge, k: nat, stack: seq<Frame>)
      requires Running() && Pending(g, keep, qs, state, stack0, e0, k0, pr0)
      modifies this`qs
      ensures Running() && Climbing(g, keep, old(qs), qs, state, stack, e, k)
      ensures Demand(stack, k) == Demand(stack0, k0) && qs.past == old(qs).past
      ensures SamePq(old(qs), qs, Output(g))
    {
      var pr, on;
      e, k, stack, pr, on := e0, k0, stack0, pr0, true;
      while on
        invariant Running() && NotFarther(g, old(qs), qs) && SamePq(old(qs), qs, Output(g))
        invariant Demand(stack, k) == Demand(stack0, k0) && qs.past == old(qs).past
        invariant on ==> Pending(g, keep, qs, state, stack, e, k, pr)
        invariant !on ==> Climbing(g, keep, old(qs), qs, state, stack, e, k)
        decreases on, e.src
      {
        on, e, k, stack, pr := DescendOnce(e, k, stack, pr, old(qs));
      }
    }

    method DescendOnce(e0: Edge, k0: nat, stack0: seq<Frame>, pr0: Edge, ghost qs0: Queues)
      returns (on: bool, e: Edge, k: nat, stack: seq<Frame>, pr: Edge)
      requires Running() && Pending(g, keep, qs, state, stack0, e0, k0, pr0) && NotFarther(g, qs0, qs)
      modifies this`qs
      ensures Running() && NotFarther(g, qs0, qs) && e.src < e0.src
      ensures Demand(stack, k) == Demand(stack0, k0) && qs.past == old(qs).past
      ensures on ==> Pending(g, keep, qs, state, stack, e, k, pr)
      ensures !on ==> Climbing(g, keep, qs0, qs, state, stack, e, k)
      ensures SamePq(old(qs), qs, Output(g))
    {
      e := pr0;
      k, stack := TakeOver(e0, k0, stack0, pr0, qs0);
      pr, on := Reach(e, k, stack, qs0);
    }

    /** The size of the shortest queue decides whether `e` has to wait. */
    method Reach(e: Edge, k: nat, stack: seq<Frame>, ghost qs0: Queues) returns (pr: Edge, waits: bool)
      requires Searching(g, keep, qs, state, stack, e, k)
      requires stack == [] || Closer(g, qs0, qs) || Launched(g, qs0, qs, stack, e, k)
      ensures if waits then Pending(g, keep, qs, state, stack, e, k, pr) && !Servable(g, qs, e, k)
              else Climbing(g, keep, qs0, qs, state, stack, e, k)
    {
      var n;
      pr, n := Shortest(e.src);
      waits := Saturate(n + Count(qs.Pq(e))) < k;
      Decide(g, keep, qs0, qs, state, stack, e, k, pr, n);
    }

    method TakeOver(e: Edge, k: nat, stack: seq<Frame>, pr: Edge, ghost qs0: Queues) returns (k': nat,
                    stack': seq<Frame>)
      requires Running() && Pending(g, keep, qs, state, stack, e, k, pr) && NotFarther(g, qs0, qs)
      modifies this`qs
      ensures Running() && Searching(g, keep, qs, state, stack', pr, k') && pr.src < e.src
      ensures NotFarther(g, qs0, qs) && Launched(g, qs0, qs, stack', pr, k')
      ensures Demand(stack', k') == Demand(stack, k) && qs.past == old(qs).past
      ensures SamePq(old(qs), qs, Output(g))
    {
      RefillFrame(g, merging, qs, pr);
      DescendStep(g, keep, merging, qs0, qs, state, stack, e, k, pr);
      k', stack' := k - Count(qs.Pq(e)), stack + [Frame(e, k)];
      qs := Refill(merging, qs, pr);
    }

    /** The second inner loop of `next_k`: serves the edge reached and every demand above it that has
    become servable. `done` tells that the output was served. */
    method Ascend(e0: Edge, k0: nat, stack0: seq<Frame>, ghost qs0: Queues, ghost s0: State)
      returns (done: bool, e: Edge, k: nat, stack: seq<Frame>, pr: Edge)
      requires Running() && Climbing(g, keep, qs0, qs, state, stack0, e0, k0) && NoneRead(g, s0, state, g.fin)
      modifies this`qs, this`begin, this`declared, this`state
      ensures Running() && qs.buffer == [] && qs.past == old(qs).past && old(declared) <= declared
      ensures done && old(qs).Pq(Output(g)) == [] ==>
                Answers(g, old(state), state, qs.Pq(Output(g)), Demand(stack0, k0))
      ensures done && old(qs).Pq(Output(g)) == [] && Demand(stack0, k0) == 1 ==>
                ServedLast(g, keep, merging, verdict, s0, qs, declared)
      ensures !done ==> Pending(g, keep, qs, state, stack, e, k, pr) && Closer(g, qs0, qs)
      ensures !done ==> Demand(stack, k) == Demand(stack0, k0)
      ensures !done ==> Quiet(g, old(qs), old(state), qs, state)
    {
      e, k, stack, pr := e0, k0, stack0, e0;
      QuietSelf(g, qs, state);
      while stack != []
        invariant Running() && Climbing(g, keep, qs0, qs, state, stack, e, k)
        invariant Demand(stack, k) == Demand(stack0, k0) && qs.past == old(qs).past && old(declared) <= declared
        invariant Quiet(g, old(qs), old(state), qs, state)
        decreases |stack|
      {
        var up;
        ghost var qs1, s1 := qs, state;
        up, e, k, stack, pr := AscendOnce(e, k, stack, qs0);
        QuietTrans(g, old(qs), old(state), qs1, s1, qs, state);
        if !up {
          return false, e, k, stack, pr;
        }
      }
      ghost var qs1, s1 := qs, state;
      Fulfil(e, k);
      NoneReadTrans(g, s0, old(state), s1, g.fin);
      LastServe(g, keep, merging, verdict, s0, qs1, s1, qs, declared, e, k);
      LastAnswers(g, keep, old(state), qs1, s1, qs, state, e, k);
      done := true;
    }

    method AscendOnce(e0: Edge, k0: nat, stack0: seq<Frame>, ghost qs0: Queues)
      returns (up: bool, e: Edge, k: nat, stack: seq<Frame>, pr: Edge)
      requires Running() && Climbing(g, keep, qs0, qs, state, stack0, e0, k0) && stack0 != []
      modifies this`qs, this`begin, this`declared, this`state
      ensures Running() && old(declared) <= declared
      ensures qs.past == old(qs).past && |stack| < |stack0| && Demand(stack, k) == Demand(stack0, k0)
      ensures up ==> Climbing(g, keep, qs0, qs, state, stack, e, k)
      ensures !up ==> Pending(g, keep, qs, state, stack, e, k, pr) && Closer(g, qs0, qs) && qs.buffer == []
      ensures Quiet(g, old(qs), old(state), qs, state)
    {
      Fulfil(e0, k0);
      ServedBelow(g, keep, old(qs), old(state), qs, state, stack0, e0, k0);
      ghost var qs1, s1 := old(qs), old(state);
      AscendStep(g, keep, qs0, qs1, s1, qs, state, stack0, e0, k0);
      var top := stack0[|stack0| - 1];
      e, k, stack := top.e, top.k, stack0[..|stack0| - 1];
      var waits;
      pr, waits := Reach(e, k, stack, qs0);
      up := !waits;
    }

    method ServeOutput(k: nat) returns (out: seq<Item>)
      requires Valid() && !Finished(qs.past) && k <= SIZE_MAX
      modifies this`qs, this`begin, this`declared, this`state
      ensures Running() && qs.buffer == [] && qs.past == old(qs).past && old(declared) <= declared
      ensures out == qs.Pq(Output(g)) && Answers(g, old(state), state, out, k)
      ensures k == 1 ==> OneStep(g, keep, merging, verdict, old(state), out, declared)
    {
      var e, ek, stack, done := Output(g), k, [], false;
      var pr, n := Shortest(e.src);
      Opening(g, keep, qs, state, pr, n, k);
      QuietSelf(g, qs, state);
      while !done
        invariant Running() && old(declared) <= declared
        invariant InService(g, keep, old(qs), old(state), qs, state, done, stack, e, ek, pr, k)
        invariant done && k == 1 ==> ServedLast(g, keep, merging, verdict, old(state), qs, declared)
        decreases !done, Total(g, qs, g.size), NonEmpty(qs)
      {
        done, e, ek, stack, pr := ServeRound(e, ek, stack, pr, k, old(qs), old(state));
      }
      out := qs.Pq(Output(g));
    }

    method ServeRound(e0: Edge, ek0: nat, stack0: seq<Frame>, pr0: Edge, ghost k: nat, ghost qs0: Queues,
                      ghost s0: State)
      returns (done: bool, e: Edge, ek: nat, stack: seq<Frame>, pr: Edge)
      requires Running() && qs0.Pq(Output(g)) == []
      requires InService(g, keep, qs0, s0, qs, state, false, stack0, e0, ek0, pr0, k)
      modifies this`qs, this`begin, this`declared, this`state
      ensures Running() && old(declared) <= declared
      ensures InService(g, keep, qs0, s0, qs, state, done, stack, e, ek, pr, k)
      ensures done && k == 1 ==> ServedLast(g, keep, merging, verdict, s0, qs, declared)
      ensures !done ==> Closer(g, old(qs), qs)
    {
      ghost var qs1, s1 := qs, state;
      e, ek, stack := Descend(e0, ek0, stack0, pr0);
      ghost var qs2 := qs;
      done, e, ek, stack, pr := Ascend(e, ek, stack, qs1, s0);
      RoundOk(g, keep, qs0, s0, qs1, s1, qs2, qs, state, done, stack, e, ek, pr, k);
    }

    /** `cfg::next_k`: at least `k` more paths (fewer only if unsatisfiable ones are dropped), or the end
    marker. */
    method NextK(k: nat) returns (out: seq<Item>)
      requires Valid() && !Finished(qs.past) && k <= SIZE_MAX
      modifies this`qs, this`begin, this`declared, this`state
      ensures Valid() && qs.past == old(qs).past + out && old(declared) <= declared
      ensures Count(out) + Lost(g, old(state), state, g.fin) >= k
      ensures k > 0 ==> Count(AllButLast(out)) + Lost(g, old(state), state, g.fin) < k || Count(out) < k
      ensures out != [] ==> Count(out[..|out| - 1]) < k
      ensures keep || (forall t :: Walk(g, t, g.fin) ==> !Declared(declared, t)) ==> Count(out) >= k
      ensures Guarantee(g, keep, qs.past, declared)
      ensures keep && Finished(qs.past) ==> PathCount(qs.past) == |Walks(g, g.fin)|
      ensures k == 1 ==> OneStep(g, keep, merging, verdict, old(state), out, declared)
    {
      out := TakeOut(k);
      qs := Emit(g, qs);
    }

    /** The paths for the output, before they leave its queue. */
    method TakeOut(k: nat) returns (out: seq<Item>)
      requires Valid() && !Finished(qs.past) && k <= SIZE_MAX
      modifies this`qs, this`begin, this`declared, this`state
      ensures Told(g, verdict, given, declared, begin, state) && old(declared) <= declared && qs.past == old(qs).past
      ensures EmittedOk(g, keep, qs, old(state), state, declared, out, k)
      ensures k == 1 ==> OneStep(g, keep, merging, verdict, old(state), out, declared)
    {
      out := ServeOutput(k);
      Emitted(g, keep, qs, old(state), state, declared, out, k);
    }

    /** The start node offers its empty path and the end marker to both outgoing edges
    (`enumerate_by_packetrate`). */
    constructor (g: Graph, keep: bool, merging: bool, verdict: Solver)
      requires g.Valid()
      ensures Valid() && this.g == g && this.keep == keep && this.merging == merging && this.verdict == verdict
      ensures qs.past == [] && declared == given == {} && state == InitialState(g)
    {
      this.g, this.keep, this.merging, this.verdict := g, keep, merging, verdict;
      given := {};
      qs := Initial(g);
      begin := seq(g.size, _ => 0);
      declared := {};
      state := InitialState(g);
      InitialOk(g, keep);
    }

    /** Paths that wait in a queue, or were emitted, may be found unsatisfiable at any time (`check`). */
    method Condemn(more: set<Trace>)
      requires Valid()
      modifies this`declared, this`given, this`state
      ensures Valid() && declared == old(declared) + more && given == old(given) + more && qs == old(qs)
      ensures state == old(state).(declared := declared)
    {
      DeclareOk(g, keep, qs, state, declared + more);
      declared, given := declared + more, given + more;
      state := state.(declared := declared);
    }

    /** `cfg::push_impossible`: unsatisfiable paths that are next in line anywhere are moved on. */
    method PushImpossible()
      requires Valid()
      modifies this`qs, this`begin, this`declared, this`state
      ensures Valid() && qs.past == old(qs).past && declared == old(declared)
      ensures forall e :: e in g.succ ==> Resting(g, qs, declared, e.src)
      ensures OnlyUnsat(g, old(state), state, declared)
    {
      for v := 0 to g.size
        invariant Valid() && qs.past == old(qs).past && declared == old(declared)
        invariant AllResting(g, qs, declared, v) && OnlyUnsat(g, old(state), state, declared)
      {
        ghost var s1 := state;
        DrainInto(v);
        OnlyUnsatTrans(g, old(state), s1, state, declared);
      }
    }

    method DrainInto(v: nat)
      requires Valid() && v < g.size && AllResting(g, qs, declared, v)
      modifies this`qs, this`begin, this`declared, this`state
      ensures Valid() && qs.past == old(qs).past && declared == old(declared) && AllResting(g, qs, declared, v + 1)
      ensures OnlyUnsat(g, old(state), state, declared)
    {
      for i := 0 to |g.preds[v]|
        invariant Valid() && qs.past == old(qs).past && declared == old(declared)
        invariant AllResting(g, qs, declared, v) && RestingInto(g, qs, declared, v, i)
        invariant OnlyUnsat(g, old(state), state, declared)
      {
        assert g.preds[v][i] in g.preds[v];
        ghost var qs0, s1 := qs, state;
        Drain(g.preds[v][i]);
        OnlyUnsatTrans(g, old(state), s1, state, declared);
        RestingStep(g, qs0, qs, declared, v, i);
      }
      RestingEnd(g, qs, declared, v);
    }

    method Drain(pr: Edge)
      requires Valid() && pr in g.succ
      modifies this`qs, this`begin, this`declared, this`state
      ensures Valid() && qs.past == old(qs).past && declared == old(declared)
      ensures Resting(g, qs, declared, pr.src) && Apart(g, old(qs), qs, pr)
      ensures OnlyUnsat(g, old(state), state, declared)
    {
      DrainStart(g, keep, merging, qs, state, pr);
      qs := Refill(merging, qs, pr).(node := pr.src);
      var more := true;
      while more
        invariant Draining(g, keep, qs, state, pr) && qs.past == old(qs).past && Apart(g, old(qs), qs, pr)
        invariant Told(g, verdict, given, declared, begin, state) && declared == old(declared)
        invariant !more ==> Resting(g, qs, declared, pr.src)
        invariant OnlyUnsat(g, old(state), state, declared)
        decreases more, Total(g, qs, g.size)
      {
        ghost var s1 := state;
        more := DrainOnce(pr, old(qs));
        OnlyUnsatTrans(g, old(state), s1, state, declared);
      }
      var sibling := Edge(pr.src, !pr.taken) in g.succ;
      DrainEnd(g, keep, merging, qs, state, declared, pr, sibling);
      qs := Flush(merging, qs, pr, sibling);
    }

    method DrainOnce(pr: Edge, ghost qs0: Queues) returns (more: bool)
      requires Draining(g, keep, qs, state, pr) && Told(g, verdict, given, declared, begin, state)
      requires Apart(g, qs0, qs, pr)
      modifies this`qs, this`begin, this`declared, this`state
      ensures Draining(g, keep, qs, state, pr) && Told(g, verdict, given, declared, begin, state)
      ensures qs.past == old(qs).past && declared == old(declared) && Apart(g, qs0, qs, pr)
      ensures OnlyUnsat(g, old(state), state, declared)
      ensures if more then Total(g, qs, g.size) < Total(g, old(qs), g.size) else Resting(g, qs, declared, pr.src)
    {
      var next;
      ghost var s;
      more, next, s := MoveOn(pr, qs0);
      if more {
        qs, state := next, s;
      }
    }

    /** The best path offered to the source of `pr` goes on, if it is unsatisfiable. */
    method MoveOn(pr: Edge, ghost qs0: Queues) returns (more: bool, next: Queues, ghost s: State)
      requires Draining(g, keep, qs, state, pr) && Told(g, verdict, given, declared, begin, state)
      requires Apart(g, qs0, qs, pr)
      modifies this`begin, this`declared
      ensures declared == old(declared) && Told(g, verdict, given, declared, begin, if more then s else state)
      ensures more ==> Draining(g, keep, next, s, pr) && Apart(g, qs0, next, pr) && next.past == qs.past
      ensures OnlyUnsat(g, state, s, declared)
      ensures if more then Total(g, next, g.size) < Total(g, qs, g.size) else Resting(g, qs, declared, pr.src)
    {
      next, s := qs, state;
      var m;
      more, m := UnsatNext(pr.src);
      if more {
        var y := Extend(qs.Pq(m)[0], m);
        next := Read(merging, qs, m, y, false);
        s := DrainStep(g, keep, merging, qs0, qs, state, pr, m, y);
      }
    }

    /** Whether a path offered to `u` is both a best one and unsatisfiable. */
    method UnsatNext(u: nat) returns (there: bool, m: Edge)
      requires QueuesOk(g, keep, qs, state) && u < g.size && BeginOk(g, begin)
      modifies this`begin
      ensures BeginOk(g, begin) && (!there ==> Resting(g, qs, declared, u))
      ensures there ==> Longest(g, qs, m) && g.succ[m] == u && Supply(g, qs, u, 0, 1) && qs.Pq(m) != []
      ensures there ==> IsUnsat(qs.Pq(m)[0], declared)
    {
      var f, n := Shortest(u);
      if n == 0 {
        NothingThere(g, keep, qs, state, declared, u, f);
        return false, f;
      }
      m := LongestPred(u);
      ShortestOffers(g, qs, u, f, n, m);
      there := IsUnsat(qs.Pq(m)[0], declared);
    }
  }

  // ---------------------------------------------------------------------------

  ghost predicate Draining(g: Graph, keep: bool, qs: Queues, s: State, pr: Edge) {
    && RunOk(g, keep, qs, s) && pr in g.succ
    && qs.node == pr.src && qs.Sq(pr) == [] && qs.Pq(Output(g)) == []
  }

  lemma {:induction false} DrainStart(g: Graph, keep: bool, merging: bool, qs: Queues, s: State, pr: Edge)
    requires RunOk(g, keep, qs, s) && pr in g.succ && qs.buffer == [] && qs.Pq(Output(g)) == []
    ensures Draining(g, keep, Refill(merging, qs, pr).(node := pr.src), s, pr)
  {
    var qs' := Refill(merging, qs, pr);
    RefillOk(g, keep, merging, qs, s, pr);
    RefillFrame(g, merging, qs, pr);
    assert SamePq(qs, qs', Output(g));
    AtNode(g, keep, qs', s, pr, 0);
  }

  lemma {:induction false} DrainEnd(g: Graph, keep: bool, merging: bool, qs: Queues, s: State, declared: set<Trace>,
                                    pr: Edge, sibling: bool)
    requires Draining(g, keep, qs, s, pr) && (sibling <==> Edge(pr.src, !pr.taken) in g.succ)
    requires Resting(g, qs, declared, pr.src)
    ensures var qs' := Flush(merging, qs, pr, sibling);
      && RunOk(g, keep, qs', s) && qs'.buffer == [] && qs'.Pq(Output(g)) == [] && qs'.past == qs.past
      && Resting(g, qs', declared, pr.src) && forall qs0 :: Apart(g, qs0, qs, pr) ==> Apart(g, qs0, qs', pr)
  {
    FlushOk(g, keep, merging, qs, s, pr);
    FlushFrame(g, merging, qs, qs, pr, sibling);
    FlushRests(g, merging, qs, declared, pr, sibling);
  }

  lemma {:induction false} FlushRests(g: Graph, merging: bool, qs: Queues, declared: set<Trace>, pr: Edge,
                                      sibling: bool)
    requires g.Valid() && pr in g.succ && Resting(g, qs, declared, pr.src)
    ensures var qs' := Flush(merging, qs, pr, sibling);
      Resting(g, qs', declared, pr.src) && forall qs0 :: Apart(g, qs0, qs, pr) ==> Apart(g, qs0, qs', pr)
  {
    var qs' := Flush(merging, qs, pr, sibling);
    forall f | f != pr ensures SamePq(qs, qs', f) {
    }
    RestingSame(g, qs, qs', declared, pr.src);
    forall qs0 | Apart(g, qs0, qs, pr) ensures Apart(g, qs0, qs', pr) {
      ApartSame(g, qs0, qs, qs', pr);
    }
  }

  lemma {:induction false} ApartSame(g: Graph, qs0: Queues, qs: Queues, qs': Queues, pr: Edge)
    requires Apart(g, qs0, qs, pr)
    requires forall f :: f in g.succ && g.succ[f] != pr.src && f != pr ==> SamePq(qs, qs', f)
    ensures Apart(g, qs0, qs', pr)
  {
    forall f | f in g.succ && g.succ[f] != pr.src && f != pr ensures SamePq(qs0, qs', f) {
      assert SamePq(qs0, qs, f);
    }
  }

  // What draining leaves.

  /** What has been read is unsatisfiable. */
  ghost predicate OnlyUnsat(g: Graph, s0: State, s: State, declared: set<Trace>) {
    forall f, t {:trigger StillWaits(s, f, t, declared)} ::
      f in g.succ && t in s0.Wait(f) ==> StillWaits(s, f, t, declared)
  }

  ghost predicate StillWaits(s: State, f: Edge, t: Trace, declared: set<Trace>) {
    t in s.Wait(f) || Declared(declared, t)
  }

  lemma {:induction false} OnlyUnsatTrans(g: Graph, s0: State, s1: State, s: State, declared: set<Trace>)
    requires OnlyUnsat(g, s0, s1, declared) && OnlyUnsat(g, s1, s, declared)
    ensures OnlyUnsat(g, s0, s, declared)
  {
    forall f, t | f in g.succ && t in s0.Wait(f) ensures StillWaits(s, f, t, declared) {
      assert StillWaits(s1, f, t, declared);
    }
  }

  lemma {:induction false} UnsatMembers(g: Graph, keep: bool, qs: Queues, s: State, m: Edge)
    requires QueuesOk(g, keep, qs, s) && m in g.succ && qs.Pq(m) != [] && IsUnsat(qs.Pq(m)[0], s.declared)
    ensures forall t :: t in MemberSet(qs.Pq(m)[0]) ==> Declared(s.declared, t)
  {
    assert m in Cursors(g) && CursorOk(g, qs, s, m);
    PendHead(g, qs, m);
    assert AllDeclared(qs.Pend(g, m)[0], s.declared);
  }

  lemma {:induction false} ReadUnsat(g: Graph, s: State, s': State, xs: set<Trace>, declared: set<Trace>)
    requires ReadsOnly(g, s, s', xs) && forall t :: t in xs ==> Declared(declared, t)
    ensures OnlyUnsat(g, s, s', declared)
  {
    forall f, t | f in g.succ && t in s.Wait(f) ensures StillWaits(s', f, t, declared) {
      assert s.Wait(f) <= s'.Wait(f) + xs;
    }
  }

  /** Nothing unsatisfiable is next at `u`: an edge offers nothing, or a best front is not unsatisfiable. */
  ghost predicate Resting(g: Graph, qs: Queues, declared: set<Trace>, u: nat) {
    || u == 0
    || (exists f :: f in g.succ && g.succ[f] == u && qs.Pq(f) == [])
    || (exists m :: Longest(g, qs, m) && g.succ[m] == u && qs.Pq(m) != [] && !IsUnsat(qs.Pq(m)[0], declared))
  }

  /** Only the queues into the source of `pr` changed, and that of `pr`. */
  ghost predicate Apart(g: Graph, qs0: Queues, qs: Queues, pr: Edge) {
    forall f {:trigger SamePq(qs0, qs, f)} :: f in g.succ && g.succ[f] != pr.src && f != pr ==> SamePq(qs0, qs, f)
  }

  /** All nodes with an edge to one of the first `v`. */
  ghost predicate AllResting(g: Graph, qs: Queues, declared: set<Trace>, v: nat) {
    forall e :: e in g.succ && g.succ[e] < v ==> Resting(g, qs, declared, e.src)
  }

  /** And with one of the first `i` edges into `v`. */
  ghost predicate RestingInto(g: Graph, qs: Queues, declared: set<Trace>, v: nat, i: nat)
    requires v < |g.preds|
  {
    forall j :: 0 <= j < i && j < |g.preds[v]| ==> Resting(g, qs, declared, g.preds[v][j].src)
  }

  lemma {:induction false} RestingSame(g: Graph, qs0: Queues, qs: Queues, declared: set<Trace>, u: nat)
    requires Resting(g, qs0, declared, u) && forall f :: f in g.succ && g.succ[f] == u ==> SamePq(qs0, qs, f)
    ensures Resting(g, qs, declared, u)
  {
    if f :| f in g.succ && g.succ[f] == u && qs0.Pq(f) == [] {
      assert SamePq(qs0, qs, f);
    } else if m :| Longest(g, qs0, m) && g.succ[m] == u && qs0.Pq(m) != [] && !IsUnsat(qs0.Pq(m)[0], declared) {
      assert SamePq(qs0, qs, m);
      forall f | f in g.succ && g.succ[f] == u ensures AtMost(FrontOf(g, qs, f), FrontOf(g, qs, m)) {
        assert SamePq(qs0, qs, f);
        assert AtMost(FrontOf(g, qs0, f), FrontOf(g, qs0, m));
      }
    }
  }

  lemma {:induction false} RestingStep(g: Graph, qs0: Queues, qs: Queues, declared: set<Trace>, v: nat, i: nat)
    requires g.Valid() && v < g.size && i < |g.preds[v]|
    requires AllResting(g, qs0, declared, v) && RestingInto(g, qs0, declared, v, i)
    requires var pr := g.preds[v][i]; Resting(g, qs, declared, pr.src) && Apart(g, qs0, qs, pr)
    ensures AllResting(g, qs, declared, v) && RestingInto(g, qs, declared, v, i + 1)
  {
    AllStillResting(g, qs0, qs, declared, v, i);
    forall j | 0 <= j < i ensures Resting(g, qs, declared, g.preds[v][j].src) {
      assert g.preds[v][j] in g.preds[v];
      StillResting(g, qs0, qs, declared, v, i, g.preds[v][j].src);
    }
  }

  lemma {:induction false} AllStillResting(g: Graph, qs0: Queues, qs: Queues, declared: set<Trace>, v: nat, i: nat)
    requires g.Valid() && v < g.size && i < |g.preds[v]| && AllResting(g, qs0, declared, v)
    requires var pr := g.preds[v][i]; Resting(g, qs, declared, pr.src) && Apart(g, qs0, qs, pr)
    ensures AllResting(g, qs, declared, v)
  {
    forall e | e in g.succ && g.succ[e] < v ensures Resting(g, qs, declared, e.src) {
      StillResting(g, qs0, qs, declared, v, i, e.src);
    }
  }

  lemma {:induction false} StillResting(g: Graph, qs0: Queues, qs: Queues, declared: set<Trace>, v: nat, i: nat, u: nat)
    requires g.Valid() && v < g.size && i < |g.preds[v]| && u < v && Resting(g, qs0, declared, u)
    requires var pr := g.preds[v][i]; Resting(g, qs, declared, pr.src) && Apart(g, qs0, qs, pr)
    ensures Resting(g, qs, declared, u)
  {
    var pr := g.preds[v][i];
    assert pr in g.preds[v];
    if u != pr.src {
      RestingSame(g, qs0, qs, declared, u);
    }
  }

  lemma {:induction false} RestingEnd(g: Graph, qs: Queues, declared: set<Trace>, v: nat)
    requires g.Valid() && v < g.size && AllResting(g, qs, declared, v) && RestingInto(g, qs, declared, v, |g.preds[v]|)
    ensures AllResting(g, qs, declared, v + 1)
  {
    forall e | e in g.succ && g.succ[e] < v + 1 ensures Resting(g, qs, declared, e.src) {
      if g.succ[e] == v {
        assert e in g.preds[v];
        var j :| 0 <= j < |g.preds[v]| && g.preds[v][j] == e;
      }
    }
  }

  /** A queue that stands for no path is empty. */
  lemma {:induction false} NothingThere(g: Graph, keep: bool, qs: Queues, s: State, declared: set<Trace>, u: nat,
                                        f: Edge)
    requires QueuesOk(g, keep, qs, s) && u < g.size && IsShortest(g, qs, u, f, 0)
    ensures Resting(g, qs, declared, u)
  {
    if u > 0 {
      assert CursorOk(g, qs, s, f);
      if qs.Pq(f) != [] {
        PendHead(g, qs, f);
        SomeSize(qs.Pq(f));
      }
    }
  }

  lemma {:induction false} ShortestOffers(g: Graph, qs: Queues, u: nat, f: Edge, n: nat, m: Edge)
    requires IsShortest(g, qs, u, f, n) && n > 0 && m in g.succ && g.succ[m] == u
    ensures Supply(g, qs, u, 0, 1) && qs.Pq(m) != []
  {
    forall e | e in g.succ && g.succ[e] == u ensures Supplies(qs, e, 0, 1) {
      assert n <= Count(qs.Pq(e));
    }
    assert Supplies(qs, m, 0, 1);
  }

  lemma {:induction false} SomeSize(q: seq<Item>)
    requires q != [] && q[0] != Impossible([])
    ensures Count(q) > 0
  {
    assert Sum(q) == Size(q[0]) + Sum(q[1..]);
  }

  lemma {:induction false} DrainStep(g: Graph, keep: bool, merging: bool, qs0: Queues, qs: Queues, s: State, pr: Edge,
                                     m: Edge, y: Item) returns (s': State)
    requires Draining(g, keep, qs, s, pr) && Supply(g, qs, pr.src, 0, 1) && Apart(g, qs0, qs, pr)
    requires Longest(g, qs, m) && g.succ[m] == pr.src && qs.Pq(m) != [] && IsUnsat(qs.Pq(m)[0], s.declared)
    requires Extends(qs.Pq(m)[0], m, y, s.declared)
    ensures OnlyUnsat(g, s, s', s.declared)
    ensures var next := Read(merging, qs, m, y, false);
      && Draining(g, keep, next, s', pr) && s'.declared == s.declared && next.past == qs.past
      && Total(g, next, g.size) < Total(g, qs, g.size) && Apart(g, qs0, next, pr)
  {
    assert s.Bound(qs.node) != NegInf by {
      assert m in Cursors(g) && CursorOk(g, qs, s, m);
      PendHead(g, qs, m);
    }
    LongestIsBest(g, qs, s.Bound(qs.node), m, 0, 1);
    s' := ReadStep(g, keep, merging, qs, s, m, y, false);
    WithinStep(g, merging, qs, qs, m, y, false);
    assert m != Output(g);
    UnsatMembers(g, keep, qs, s, m);
    ReadUnsat(g, s, s', MemberSet(qs.Pq(m)[0]), s.declared);
    ReadApart(g, merging, qs0, qs, pr, m, y);
  }

  lemma {:induction false} ReadApart(g: Graph, merging: bool, qs0: Queues, qs: Queues, pr: Edge, m: Edge, y: Item)
    requires Apart(g, qs0, qs, pr) && m in g.succ && g.succ[m] == pr.src && qs.Pq(m) != []
    ensures Apart(g, qs0, Read(merging, qs, m, y, false), pr)
  {
    var next := Read(merging, qs, m, y, false);
    forall f | f in g.succ && g.succ[f] != pr.src && f != pr ensures SamePq(qs, next, f) {
    }
    ApartSame(g, qs0, qs, next, pr);
  }

  /** The queues as `enumerate_by_packetrate` fills them. */
  function Initial(g: Graph): Queues {
    Queues(map e | e in Cursors(g) :: [],
           map e | e in g.succ :: if e.src == 0 then [Possible([]), NoPath] else [],
           [], 0, [])
  }

  ghost function InitialState(g: Graph): State {
    State(map e | e in Cursors(g) :: if e.src == 0 then {[]} else {}, map[0 := {[]}], map[0 := NegInf], {})
  }

  lemma {:induction false} InitialInv(g: Graph, keep: bool)
    requires g.Valid()
    ensures Inv(g, keep, InitialState(g))
  {
    var s := InitialState(g);
    forall v: nat, t ensures InvMissing(g, keep, s, v, t) {
    }
    forall e, t | e in g.succ ensures InvRead(g, keep, s, e, t) {
      assert e in Cursors(g);
    }
    forall e | e in Cursors(g) ensures InvCursor(g, s, e) {
    }
  }

  lemma {:induction false} InitialQueue(g: Graph, weight: real)
    ensures var q := [Possible([]), NoPath];
      QueueOk(g, q, {[]}, NegInf, {}) && ReaderOk(g, q, weight, NegInf, PosInf)
  {
    var q := [Possible([]), NoPath];
    assert q[1..] == [NoPath] && q[1..][1..] == [];
    assert MemberSet(q[0]) == {[]} && MemberSet(q[1]) == {};
    assert Holds(q[1..], {});
  }

  lemma {:induction false} InitialCursor(g: Graph, e: Edge)
    requires g.Valid() && e in Cursors(g)
    ensures CursorOk(g, Initial(g), InitialState(g), e)
  {
    var qs, s := Initial(g), InitialState(g);
    if e.src == 0 {
      InitialQueue(g, Weight(g, e));
      assert e in g.succ && qs.Pend(g, e) == qs.Sq(e);
    } else {
      assert qs.Pend(g, e) == [];
    }
  }

  lemma {:induction false} InitialOk(g: Graph, keep: bool)
    requires g.Valid()
    ensures RunOk(g, keep, Initial(g), InitialState(g))
  {
    InitialInv(g, keep);
    forall e | e in Cursors(g) ensures CursorOk(g, Initial(g), InitialState(g), e) {
      InitialCursor(g, e);
    }
  }

  function Emit(g: Graph, qs: Queues): Queues {
    qs.(pq := qs.pq[Output(g) := []], past := qs.past + qs.Pq(Output(g)))
  }

  lemma {:induction false} EmitOk(g: Graph, keep: bool, qs: Queues, s: State)
    requires RunOk(g, keep, qs, s)
    ensures RunOk(g, keep, Emit(g, qs), s)
  {
    var qs' := Emit(g, qs);
    forall e | e in Cursors(g) ensures CursorOk(g, qs', s, e) {
      assert CursorOk(g, qs, s, e);
      if e == Output(g) {
        assert qs.past + qs.Pq(e) + [] == qs.past + qs.Pq(e);
      }
      assert qs'.Pend(g, e) == qs.Pend(g, e);
    }
  }

  lemma {:induction false} Spare(g: Graph, s0: State, s: State, out: seq<Item>, k: nat)
    requires Answers(g, s0, s, out, k)
    ensures out != [] ==> Count(AllButLast(out)) < k
  {
    if out != [] {
      SumSplit(out);
    }
  }

  /** What is promised of the paths that come out. */
  ghost predicate EmittedOk(g: Graph, keep: bool, qs: Queues, s0: State, s: State, declared: set<Trace>,
                            out: seq<Item>, k: nat) {
    var qs' := Emit(g, qs);
    && RunOk(g, keep, qs', s) && qs'.buffer == [] && qs'.Pq(Output(g)) == [] && qs'.past == qs.past + out
    && Guarantee(g, keep, qs'.past, declared)
    && (keep && Finished(qs'.past) ==> PathCount(qs'.past) == |Walks(g, g.fin)|)
    && Count(out) + Lost(g, s0, s, g.fin) >= k
    && (k > 0 ==> Count(AllButLast(out)) + Lost(g, s0, s, g.fin) < k || Count(out) < k)
    && (out != [] ==> Count(out[..|out| - 1]) < k)
    && (keep || (forall t :: Walk(g, t, g.fin) ==> !Declared(declared, t)) ==> Count(out) >= k)
  }

  lemma {:induction false} Emitted(g: Graph, keep: bool, qs: Queues, s0: State, s: State, declared: set<Trace>,
                                   out: seq<Item>, k: nat)
    requires RunOk(g, keep, qs, s) && qs.buffer == [] && s.declared == declared
    requires out == qs.Pq(Output(g)) && Answers(g, s0, s, out, k)
    ensures EmittedOk(g, keep, qs, s0, s, declared, out, k)
  {
    EmitOk(g, keep, qs, s);
    Spare(g, s0, s, out, k);
    Guaranteed(g, keep, Emit(g, qs), s);
    if keep && Finished(Emit(g, qs).past) {
      Conservation(g, Emit(g, qs), s);
    }
    if keep || (forall t :: Walk(g, t, g.fin) ==> !Declared(declared, t)) {
      NoneDropped(g, keep, s);
    }
  }

  /** A search starts with the demand for the output. */
  lemma {:induction false} Opening(g: Graph, keep: bool, qs: Queues, s: State, pr: Edge, n: nat, k: nat)
    requires RunOk(g, keep, qs, s) && qs.buffer == [] && qs.Pq(Output(g)) == [] && !Finished(qs.past) && k <= SIZE_MAX
    requires IsShortest(g, qs, g.fin, pr, n)
    ensures Pending(g, keep, qs, s, [], Output(g), k, pr)
  {
    var o := Output(g);
    assert CursorOk(g, qs, s, o);
    assert qs.Pend(g, o) == qs.past;
    assert Count(qs.Pq(o)) == 0;
    if n >= k {
      ShortestSupplies(g, qs, o, pr, n, k);
    }
  }

  /** On the way up, with something gained since `qs0` unless only the output is left to serve. */
  ghost predicate Climbing(g: Graph, keep: bool, qs0: Queues, qs: Queues, s: State, stack: seq<Frame>, e: Edge,
                           k: nat) {
    && Searching(g, keep, qs, s, stack, e, k) && Servable(g, qs, e, k)
    && (stack == [] || Closer(g, qs0, qs) || Launched(g, qs0, qs, stack, e, k))
  }

  /** The search goes on: the demand for `e` waits for its predecessor edge `pr`. */
  ghost predicate Pending(g: Graph, keep: bool, qs: Queues, s: State, stack: seq<Frame>, e: Edge, k: nat, pr: Edge) {
    && Searching(g, keep, qs, s, stack, e, k) && FrameOk(g, qs, s, Frame(e, k))
    && pr in g.succ && g.succ[pr] == e.src
    && (Count(qs.Pq(pr)) + Count(qs.Pq(e)) < k || (stack == [] && Servable(g, qs, e, k)))
  }

  lemma {:induction false} SameNonEmpty(g: Graph, qs0: Queues, qs: Queues)
    requires Shape(g, qs0) && Shape(g, qs) && SameQueues(qs0, qs)
    ensures NonEmpty(qs) == NonEmpty(qs0)
  {
    forall f ensures f in NonEmpty(qs) <==> f in NonEmpty(qs0) {
      assert SameSq(qs0, qs, f);
    }
  }

  lemma {:induction false} AscendCloser(g: Graph, keep: bool, qsB: Queues, qs0: Queues, s0: State, qs: Queues,
                                        s: State, stack: seq<Frame>, e: Edge, k: nat)
    requires g.Valid() && Shape(g, qs0) && stack != []
    requires Closer(g, qsB, qs0) || Launched(g, qsB, qs0, stack, e, k)
    requires Served(g, keep, qs0, s0, qs, s, e, k)
    ensures Closer(g, qsB, qs) || (|stack| == 1 && stack[0].e == Output(g) && Servable(g, qs, Output(g), stack[0].k))
  {
    if Count(qs0.Pq(e)) >= k {
      SameNonEmpty(g, qs0, qs);
      if !Closer(g, qsB, qs) {
        var o := Output(g);
        assert SamePq(qs0, qs, o);
        forall f | f in g.succ && g.succ[f] == o.src && Count(qs.Pq(o)) < stack[0].k
          ensures Supplies(qs, f, Count(qs.Pq(o)), stack[0].k)
        {
          assert Supplies(qs0, f, Count(qs.Pq(o)), stack[0].k) && SamePq(qs0, qs, f);
        }
      }
    }
  }

  lemma {:induction false} AscendStep(g: Graph, keep: bool, qsB: Queues, qs0: Queues, s0: State, qs: Queues,
                                      s: State, stack: seq<Frame>, e: Edge, k: nat)
    requires Climbing(g, keep, qsB, qs0, s0, stack, e, k) && stack != [] && Served(g, keep, qs0, s0, qs, s, e, k)
    ensures
      var top, rest := stack[|stack| - 1], stack[..|stack| - 1];
      && Searching(g, keep, qs, s, rest, top.e, top.k) && Demand(rest, top.k) == Demand(stack, k)
      && (Closer(g, qsB, qs) || (rest == [] && Servable(g, qs, top.e, top.k)))
  {
    AscendOk(g, keep, qs0, s0, qs, s, stack, e, k);
    AscendCloser(g, keep, qsB, qs0, s0, qs, s, stack, e, k);
  }

  /** The size of the shortest queue decides whether `e` is served now or has to wait. */
  lemma {:induction false} Decide(g: Graph, keep: bool, qs0: Queues, qs: Queues, s: State, stack: seq<Frame>,
                                  e: Edge, k: nat, pr: Edge, n: nat)
    requires Searching(g, keep, qs, s, stack, e, k)
    requires stack == [] || Closer(g, qs0, qs) || Launched(g, qs0, qs, stack, e, k)
    requires IsShortest(g, qs, e.src, pr, n)
    ensures
      if Saturate(n + Count(qs.Pq(e))) < k then Pending(g, keep, qs, s, stack, e, k, pr) && !Servable(g, qs, e, k)
      else Climbing(g, keep, qs0, qs, s, stack, e, k)
  {
    if Saturate(n + Count(qs.Pq(e))) < k {
      assert e.src != 0;
      assert !Supplies(qs, pr, Count(qs.Pq(e)), k);
    } else {
      ShortestSupplies(g, qs, e, pr, n, k);
    }
  }

  ghost predicate NotFarther(g: Graph, qs0: Queues, qs: Queues)
    requires g.Valid()
  {
    Total(g, qs, g.size) <= Total(g, qs0, g.size) && NonEmpty(qs) <= NonEmpty(qs0)
  }

  lemma {:induction false} ChainBottom(g: Graph, stack: seq<Frame>, e: Edge)
    requires g.Valid() && Chain(g, stack, e) && stack != []
    ensures stack[0].e == Output(g) && e.src < g.fin
  {
    var n := |stack| - 1;
    if n > 0 {
      ChainBottom(g, stack[..n], stack[n].e);
    }
  }

  /** What holds between two rounds of `next_k`; `done` when the output has been served. */
  ghost predicate InService(g: Graph, keep: bool, qs0: Queues, s0: State, qs: Queues, s: State, done: bool,
                            stack: seq<Frame>, e: Edge, ek: nat, pr: Edge, k: nat) {
    && qs.buffer == [] && qs.past == qs0.past
    && (!done ==> Pending(g, keep, qs, s, stack, e, ek, pr) && Demand(stack, ek) == k && Quiet(g, qs0, s0, qs, s))
    && (done ==> Answers(g, s0, s, qs.Pq(Output(g)), k))
  }

  lemma {:induction false} RoundOk(g: Graph, keep: bool, qs0: Queues, s0: State, qs1: Queues, s1: State, qs2: Queues,
                                   qs: Queues, s: State, done: bool, stack: seq<Frame>, e: Edge, ek: nat, pr: Edge,
                                   k: nat)
    requires Quiet(g, qs0, s0, qs1, s1) && qs0.Pq(Output(g)) == [] && qs1.past == qs0.past
    requires SamePq(qs1, qs2, Output(g)) && qs.past == qs1.past && qs.buffer == []
    requires done && qs2.Pq(Output(g)) == [] ==> Answers(g, s1, s, qs.Pq(Output(g)), k)
    requires !done ==> Pending(g, keep, qs, s, stack, e, ek, pr) && Demand(stack, ek) == k && Quiet(g, qs2, s1, qs, s)
    ensures InService(g, keep, qs0, s0, qs, s, done, stack, e, ek, pr, k)
  {
    if done {
      AnswersFrom(g, s0, s1, s, qs.Pq(Output(g)), k);
    } else {
      QuietTrans(g, qs0, s0, qs1, s1, qs, s);
    }
  }

  /** Serving an edge on the way up leaves the output alone, and what leads to the final node. */
  lemma {:induction false} ServedBelow(g: Graph, keep: bool, qs0: Queues, s0: State, qs: Queues, s: State,
                                       stack: seq<Frame>, e: Edge, k: nat)
    requires Searching(g, keep, qs0, s0, stack, e, k) && Served(g, keep, qs0, s0, qs, s, e, k) && stack != []
    ensures Quiet(g, qs0, s0, qs, s)
  {
    ChainBottom(g, stack, e);
  }

  lemma {:induction false} LastServe(g: Graph, keep: bool, merging: bool, verdict: Solver, s0: State, qs1: Queues,
                                     s1: State, qs: Queues, declared: set<Trace>, e: Edge, k: nat)
    requires Searching(g, keep, qs1, s1, [], e, k) && Servable(g, qs1, e, k) && NoneRead(g, s0, s1, g.fin)
    requires k == Count(qs1.Pq(e)) + 1 ==> ServedOnce(g, keep, merging, verdict, qs1, qs, declared, e)
    ensures qs1.Pq(Output(g)) == [] && k == 1 ==> ServedLast(g, keep, merging, verdict, s0, qs, declared)
  {
    assert e == Output(g) && Count([]) == 0;
    if qs1.Pq(Output(g)) == [] && k == 1 {
      assert Before(g, keep, s0, qs1, s1) && Supply(g, qs1, g.fin, 0, 1);
    }
  }

  lemma {:induction false} LastAnswers(g: Graph, keep: bool, s0: State, qs1: Queues, s1: State, qs: Queues, s: State,
                                       e: Edge, k: nat)
    requires Searching(g, keep, qs1, s1, [], e, k) && DropsBy(g, s0, s1, g.fin, 0)
    requires Served(g, keep, qs1, s1, qs, s, e, k)
    ensures qs1.Pq(Output(g)) == [] ==> Answers(g, s0, s, qs.Pq(Output(g)), k)
  {
  }

  /** After a descent some paths have been taken over, or the edge reached has something to read, or
  the output itself can be served. */
  ghost predicate Launched(g: Graph, qs0: Queues, qs: Queues, stack: seq<Frame>, e: Edge, k: nat)
    requires g.Valid()
  {
    && NotFarther(g, qs0, qs)
    && (|| NonEmpty(qs) < NonEmpty(qs0)
        || Count(qs.Pq(e)) < k
        || (|stack| == 1 && stack[0].e == Output(g) && Servable(g, qs, Output(g), stack[0].k)))
  }

  lemma {:induction false} DescendLaunched(g: Graph, merging: bool, qs: Queues, s: State, stack: seq<Frame>,
                                           e: Edge, k: nat, pr: Edge)
    requires g.Valid() && Shape(g, qs) && Chain(g, stack, e) && FrameOk(g, qs, s, Frame(e, k))
    requires pr in g.succ && g.succ[pr] == e.src
    requires Count(qs.Pq(pr)) + Count(qs.Pq(e)) < k || (stack == [] && Servable(g, qs, e, k))
    requires Total(g, Refill(merging, qs, pr), g.size) <= Total(g, qs, g.size) && Count(qs.Pq(e)) <= k
    ensures Launched(g, qs, Refill(merging, qs, pr), stack + [Frame(e, k)], pr, k - Count(qs.Pq(e)))
  {
    var qs' := Refill(merging, qs, pr);
    RefillFrame(g, merging, qs, pr);
    if pr !in NonEmpty(qs) {
      assert SamePq(qs, qs', pr) && SamePq(qs, qs', e);
      if Count(qs.Pq(pr)) + Count(qs.Pq(e)) >= k {
        forall f | f in g.succ && g.succ[f] == e.src && Count(qs.Pq(e)) < k
          ensures Supplies(qs', f, Count(qs.Pq(e)), k)
        {
          assert Supplies(qs, f, Count(qs.Pq(e)), k) && SamePq(qs, qs', f);
        }
      }
    }
  }

  lemma {:induction false} DescendStep(g: Graph, keep: bool, merging: bool, qs0: Queues, qs: Queues, s: State,
                                       stack: seq<Frame>, e: Edge, k: nat, pr: Edge)
    requires Pending(g, keep, qs, s, stack, e, k, pr) && NotFarther(g, qs0, qs)
    ensures Count(qs.Pq(e)) <= k
    ensures
      var qs', stack', k' := Refill(merging, qs, pr), stack + [Frame(e, k)], k - Count(qs.Pq(e));
      && Searching(g, keep, qs', s, stack', pr, k')
      && NotFarther(g, qs0, qs') && Launched(g, qs0, qs', stack', pr, k')
      && Demand(stack', k') == Demand(stack, k) && qs'.past == qs.past && pr.src < e.src
  {
    DescendOk(g, keep, merging, qs, s, stack, e, k, pr);
    DescendLaunched(g, merging, qs, s, stack, e, k, pr);
  }

  lemma {:induction false} ShortestSupplies(g: Graph, qs: Queues, e: Edge, pr: Edge, n: nat, k: nat)
    requires k <= SIZE_MAX && Saturate(n + Count(qs.Pq(e))) >= k
    requires IsShortest(g, qs, e.src, pr, n)
    ensures Servable(g, qs, e, k)
  {
    forall f | f in g.succ && g.succ[f] == e.src && Count(qs.Pq(e)) < k ensures Supplies(qs, f, Count(qs.Pq(e)), k) {
      assert n <= Count(qs.Pq(f));
    }
  }
}
