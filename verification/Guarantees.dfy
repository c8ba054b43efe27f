/** What consistent queues say about the paths that were emitted. */
module Guarantees {
  import opened Dag
  import opened Streams
  import opened PathQueues
  import opened Reading

  /** The end marker has been emitted. */
  predicate Finished(emitted: seq<Item>) {
    emitted != [] && emitted[|emitted| - 1] == NoPath
  }

  /** `t` is one of the paths emitted. */
  ghost predicate Among(emitted: seq<Item>, t: Trace) {
    exists i :: 0 <= i < |emitted| && t in Members(emitted[i])
  }

  /** What the paths emitted so far say about all paths of the graph. */
  ghost predicate Guarantee(g: Graph, keep: bool, emitted: seq<Item>, declared: set<Trace>) {
    // Paths come out in nonincreasing cost, and the end marker comes last.
    && (forall i, j :: 0 <= i < j < |emitted| ==> AtMost(Rank(g, emitted[j]), Rank(g, emitted[i])))
    && (forall i :: 0 <= i < |emitted| - 1 ==> emitted[i] != NoPath)
    // Only complete paths come out, each of them once.
    && (forall t :: Among(emitted, t) ==> Walk(g, t, g.fin))
    && (forall i :: 0 <= i < |emitted| ==> NoRepeat(Members(emitted[i])))
    && (forall i, j, t :: 0 <= i < j < |emitted| && t in Members(emitted[i]) ==> t !in Members(emitted[j]))
    // What is called impossible was found unsatisfiable.
    && (forall i :: 0 <= i < |emitted| ==> AllDeclared(emitted[i], declared))
    // No satisfiable path that is still to come costs more than one that came out.
    && (forall t, i :: Walk(g, t, g.fin) && !Among(emitted, t) && 0 <= i < |emitted| ==>
          Declared(declared, t) || AtMost(Finite(Cost(g, t)), Rank(g, emitted[i])))
    // At the end nothing is missing but unsatisfiable paths, and those only if they are dropped.
    && (Finished(emitted) ==>
          forall t :: Walk(g, t, g.fin) ==> Among(emitted, t) || (!keep && Declared(declared, t)))
  }

  lemma {:induction false} HoldsSubset(q: seq<Item>, w: set<Trace>, i: nat)
    requires Holds(q, w) && i < |q|
    ensures MemberSet(q[i]) <= w && NoRepeat(Members(q[i]))
  {
    if i > 0 {
      HoldsSubset(q[1..], w - MemberSet(q[0]), i - 1);
    }
  }

  lemma {:induction false} HoldsApart(q: seq<Item>, w: set<Trace>, i: nat, j: nat)
    requires Holds(q, w) && i < j < |q|
    ensures MemberSet(q[i]) !! MemberSet(q[j])
  {
    if i == 0 {
      HoldsSubset(q[1..], w - MemberSet(q[0]), j - 1);
    } else {
      HoldsApart(q[1..], w - MemberSet(q[0]), i - 1, j - 1);
    }
  }

  lemma {:induction false} AmongHeld(q: seq<Item>, w: set<Trace>, t: Trace)
    requires Holds(q, w)
    ensures Among(q, t) <==> t in w
  {
    if Among(q, t) {
      var i :| 0 <= i < |q| && t in Members(q[i]);
      HoldsSubset(q, w, i);
      assert t in MemberSet(q[i]);
    }
    if t in w {
      var i := HoldsMember(q, w, t);
    }
  }

  lemma {:induction false} GuaranteedParts(g: Graph, keep: bool, qs: Queues, s: State)
    requires QueuesOk(g, keep, qs, s) && qs.buffer == [] && qs.Pq(Output(g)) == [] && qs.Sq(Output(g)) == []
    ensures QueueOk(g, qs.past, s.Kept(g.fin), s.Bound(g.fin), s.declared)
    ensures s.Bound(g.fin) == NegInf ==> Finished(qs.past)
  {
    var o := Output(g);
    assert CursorOk(g, qs, s, o) && InvCursor(g, s, o);
    assert qs.Pend(g, o) == qs.past;
  }

  lemma {:induction false} GuaranteedWalks(g: Graph, keep: bool, s: State, q: seq<Item>, t: Trace)
    requires Inv(g, keep, s) && QueueOk(g, q, s.Kept(g.fin), s.Bound(g.fin), s.declared)
    ensures Among(q, t) ==> Walk(g, t, g.fin)
    ensures Walk(g, t, g.fin) && !Among(q, t) ==>
      if Finished(q) then !keep && Declared(s.declared, t)
      else Declared(s.declared, t) || AtMost(Finite(Cost(g, t)), s.Bound(g.fin))
  {
    AmongHeld(q, s.Kept(g.fin), t);
    assert InvKept(g, s, g.fin, t) && InvMissing(g, keep, s, g.fin, t);
  }

  /** Consistent queues guarantee everything that the enumeration promises. */
  lemma {:induction false} Guaranteed(g: Graph, keep: bool, qs: Queues, s: State)
    requires QueuesOk(g, keep, qs, s) && qs.buffer == [] && qs.Pq(Output(g)) == [] && qs.Sq(Output(g)) == []
    ensures Guarantee(g, keep, qs.past, s.declared)
  {
    var q, w := qs.past, s.Kept(g.fin);
    GuaranteedParts(g, keep, qs, s);
    forall t | Among(q, t) ensures Walk(g, t, g.fin) {
      GuaranteedWalks(g, keep, s, q, t);
    }
    forall i | 0 <= i < |q| ensures NoRepeat(Members(q[i])) {
      HoldsSubset(q, w, i);
    }
    forall i, j, t | 0 <= i < j < |q| && t in Members(q[i]) ensures t !in Members(q[j]) {
      HoldsApart(q, w, i, j);
      assert t in MemberSet(q[i]);
    }
    forall t, i | Walk(g, t, g.fin) && !Among(q, t) && 0 <= i < |q|
      ensures Declared(s.declared, t) || AtMost(Finite(Cost(g, t)), Rank(g, q[i]))
    {
      GuaranteedWalks(g, keep, s, q, t);
      assert AtMost(s.Bound(g.fin), Rank(g, q[i]));
    }
    if Finished(q) {
      forall t | Walk(g, t, g.fin) ensures Among(q, t) || (!keep && Declared(s.declared, t)) {
        GuaranteedWalks(g, keep, s, q, t);
      }
    }
  }

  // ---------------------------------------------------------------------------
  // Conservation: the sizes of what is emitted add up to the number of paths

  /** All paths from the start node to `v`. */
  ghost function Walks(g: Graph, v: nat): set<Trace>
    requires g.Valid()
    decreases v
  {
    if v == 0 then {[]}
    else set e, t | e in g.succ && g.succ[e] == v && t in Walks(g, e.src) :: t + [e]
  }

  lemma {:induction false} WalksAll(g: Graph, v: nat, t: Trace)
    requires g.Valid()
    ensures t in Walks(g, v) <==> Walk(g, t, v)
    decreases v
  {
    if v > 0 {
      if Walk(g, t, v) {
        var e, p := Last(t), Init(t);
        WalksAll(g, e.src, p);
        assert t == p + [e];
      }
      if t in Walks(g, v) {
        var e, p :| e in g.succ && g.succ[e] == v && p in Walks(g, e.src) && t == p + [e];
        WalksAll(g, e.src, p);
        WalkExtend(g, p, e);
      }
    }
  }

  /** The number of paths that a sequence of path objects stands for. */
  function PathCount(q: seq<Item>): nat {
    if q == [] then 0 else |Members(q[0])| + PathCount(q[1..])
  }

  lemma {:induction false} HoldsSize(q: seq<Item>, w: set<Trace>)
    requires Holds(q, w)
    ensures PathCount(q) == |w|
  {
    if q != [] {
      NoRepeatSize(Members(q[0]));
      HoldsSize(q[1..], w - MemberSet(q[0]));
      assert w == MemberSet(q[0]) + (w - MemberSet(q[0]));
    }
  }

  /** If unsatisfiable paths are kept, then what was emitted up to the end marker stands for every path
  of the graph, whatever was merged on the way. */
  lemma {:induction false} Conservation(g: Graph, qs: Queues, s: State)
    requires QueuesOk(g, true, qs, s) && qs.buffer == [] && qs.Pq(Output(g)) == [] && qs.Sq(Output(g)) == []
    requires Finished(qs.past)
    ensures PathCount(qs.past) == |Walks(g, g.fin)|
  {
    GuaranteedParts(g, true, qs, s);
    HoldsSize(qs.past, s.Kept(g.fin));
    assert s.Kept(g.fin) == Walks(g, g.fin) by {
      forall t ensures t in s.Kept(g.fin) <==> t in Walks(g, g.fin) {
        WalksAll(g, g.fin, t);
        AmongHeld(qs.past, s.Kept(g.fin), t);
        GuaranteedWalks(g, true, s, qs.past, t);
      }
    }
  }
}
