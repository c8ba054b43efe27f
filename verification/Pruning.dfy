/** `path::possible::apply_unsat_core` and `mark_unsat`: an unsatisfiable prefix takes its extensions with it. */
module Pruning {
  import opened Dag

  function Parent(t: Trace): Trace
    requires t != []
  {
    t[..|t| - 1]
  }

  ghost predicate Extends(u: Trace, t: Trace) { |t| <= |u| && u[..|t|] == t }

  // What is assumed on a path.

  datatype Name = Branch(edge: Edge) | MinValue | MaxValue

  /** What a program makes of its paths. `claim(t)` is the assumption that the last branch of `t` adds;
  assumptions about the packet size are folded into bounds instead. */
  datatype Program = Program(
    claim: Trace -> nat,
    holds: (nat, nat) -> bool,   // model and assumption
    size: nat -> nat,            // the packet size in a model
    low: Trace -> nat,           // `min_value` and `max_value` after a path
    high: Trace -> nat)
  {
    /** Bounds only get tighter. */
    ghost predicate Valid() {
      forall t, u {:trigger Extends(u, t)} :: Extends(u, t) ==> low(t) <= low(u) && high(u) <= high(t)
    }
  }

  ghost predicate Claims(p: Program, t: Trace, m: nat, i: nat)
    requires i < |t|
  {
    p.holds(m, p.claim(t[..i + 1]))
  }

  ghost predicate Satisfies(p: Program, t: Trace, m: nat) {
    && (forall i :: 0 <= i < |t| ==> Claims(p, t, m, i))
    && p.low(t) <= p.size(m) <= p.high(t)
  }

  ghost predicate Feasible(p: Program, t: Trace) { exists m :: Satisfies(p, t, m) }

  /** `m` satisfies what the core names. */
  ghost predicate SatisfiesCore(p: Program, t: Trace, core: set<Name>, m: nat) {
    && (forall i :: 0 <= i < |t| && Branch(t[i]) in core ==> Claims(p, t, m, i))
    && (MinValue in core ==> p.low(t) <= p.size(m))
    && (MaxValue in core ==> p.size(m) <= p.high(t))
  }

  /** What the core names contradicts itself. */
  ghost predicate Core(p: Program, t: Trace, core: set<Name>) {
    forall m :: !SatisfiesCore(p, t, core, m)
  }

  /** The prefix up to the last branch that the core names: `[]` if it names none. */
  function Cut(t: Trace, core: set<Name>): (c: Trace)
    ensures |c| <= |t| && c == t[..|c|]
    ensures c != [] ==> Branch(c[|c| - 1]) in core
    ensures forall i :: |c| <= i < |t| ==> Branch(t[i]) !in core
  {
    if t == [] then []
    else if Branch(t[|t| - 1]) in core then t
    else
      var c := Cut(Parent(t), core);
      assert forall i :: |c| <= i < |t| - 1 ==> Branch(Parent(t)[i]) !in core;
      c
  }

  /** The bounds that the core names are those of the cut already. */
  ghost predicate BoundsSettled(p: Program, t: Trace, core: set<Name>) {
    var c := Cut(t, core);
    (MinValue in core ==> p.low(c) == p.low(t)) && (MaxValue in core ==> p.high(c) == p.high(t))
  }

  /** Extensions are at most as satisfiable. */
  lemma {:induction false} Monotone(p: Program, t: Trace, u: Trace)
    requires p.Valid() && Extends(u, t) && Feasible(p, u)
    ensures Feasible(p, t)
  {
    var m :| Satisfies(p, u, m);
    forall i | 0 <= i < |t| ensures Claims(p, t, m, i) {
      assert Claims(p, u, m, i);
      assert u[..i + 1] == t[..i + 1];
    }
    assert Satisfies(p, t, m);
  }

  /** If the core names only branches, or no bound that changed later, no extension of the cut is satisfiable. */
  lemma {:induction false} CutInfeasible(p: Program, t: Trace, core: set<Name>, u: Trace)
    requires p.Valid() && Core(p, t, core) && BoundsSettled(p, t, core)
    requires Extends(u, Cut(t, core))
    ensures !Feasible(p, u)
  {
    var c := Cut(t, core);
    if Feasible(p, u) {
      Monotone(p, c, u);
      var m :| Satisfies(p, c, m);
      forall i | 0 <= i < |t| && Branch(t[i]) in core ensures Claims(p, t, m, i) {
        assert i < |c|;
        assert Claims(p, c, m, i);
        assert t[..i + 1] == c[..i + 1];
      }
      assert SatisfiesCore(p, t, core, m);
    }
  }

  /** What the code must be told: nothing is marked, or the bounds that the core names are those of the cut
  already, or the cut itself leaves no packet size. */
  ghost predicate Settled(p: Program, t: Trace, core: set<Name>) {
    var c := Cut(t, core);
    c == [] || BoundsSettled(p, t, core) || p.low(c) > p.high(c)
  }

  /** Otherwise there are programs with the same bounds, and with a model for each packet size, whose core is
  right and whose cut is satisfiable: the branches that the core names leave one packet size, and the bound
  that changed later excludes it. */
  lemma {:induction false} BoundsMislead(p: Program, t: Trace, core: set<Name>) returns (q: Program)
    requires p.Valid() && !Settled(p, t, core)
    ensures q.Valid() && SameBounds(p, q) && forall m :: q.size(m) == m
    ensures Core(q, t, core) && Feasible(q, Cut(t, core))
  {
    var c := Cut(t, core);
    var s := if MinValue in core && p.low(c) != p.low(t) then p.low(c) else p.high(c);
    q := p.(holds := (m, e) => m == s, size := m => m);
    assert Satisfies(q, c, s);
    forall m ensures !SatisfiesCore(q, t, core, m) {
      CutNamed(t, core);
      assert Claims(q, t, m, |c| - 1) <==> m == s;
      assert Extends(t, c);
    }
  }

  ghost predicate SameBounds(p: Program, q: Program) { q.low == p.low && q.high == p.high }

  /** Whatever the program makes of its branches, what `apply_unsat_core` marks is unsatisfiable whenever the
  core is right, exactly if `Settled`. */
  lemma {:induction false} PruningExact(p: Program, t: Trace, core: set<Name>)
    requires p.Valid()
    ensures Settled(p, t, core) <==>
            forall q, live {:trigger Prunes(q, t, core, live)} :: SameBounds(p, q) ==> Prunes(q, t, core, live)
  {
    if Settled(p, t, core) {
      forall q, live | SameBounds(p, q) ensures Prunes(q, t, core, live) {
        if q.Valid() && Core(q, t, core) {
          CutSound(q, t, core, live);
        }
      }
    } else {
      var q := BoundsMislead(p, t, core);
      var c := Cut(t, core);
      assert Extends(c, c);
      assert c in Pruned({c}, t, core);
      assert !Prunes(q, t, core, {c});
    }
  }

  /** If the core is right, so is what it marks. */
  ghost predicate Prunes(q: Program, t: Trace, core: set<Name>, live: set<Trace>) {
    q.Valid() && Core(q, t, core) ==> Sound(q, Pruned(live, t, core))
  }

  // The tree of paths.

  /** The predecessor of a living path lives, and ends where the path goes on. */
  ghost predicate Rooted(live: set<Trace>, end: Trace -> nat, t: Trace) {
    t in live && t != [] ==> Parent(t) in live && t[|t| - 1].src == end(Parent(t))
  }

  /** The predecessor points to a living path exactly if it is not marked itself. */
  ghost predicate Points(live: set<Trace>, linked: set<Trace>, marked: set<Trace>, t: Trace) {
    t in linked <==> t in live && t != [] && Parent(t) !in marked
  }

  /** A path is marked, or about to be, if its predecessor is marked. */
  ghost predicate Passed(live: set<Trace>, marked: set<Trace>, stack: seq<Trace>, t: Trace) {
    t in live && t != [] && Parent(t) in marked ==> t in marked || t in stack
  }

  /** Path objects: those alive, those their predecessors still point to, those marked. */
  datatype Forest = Forest(live: set<Trace>, linked: set<Trace>, marked: set<Trace>)

  ghost predicate Growing(f: Forest, end: Trace -> nat, stack: seq<Trace>) {
    && f.marked <= f.live
    && (forall t {:trigger Rooted(f.live, end, t)} :: Rooted(f.live, end, t))
    && (forall t {:trigger Points(f.live, f.linked, f.marked, t)} :: Points(f.live, f.linked, f.marked, t))
    && (forall t {:trigger Passed(f.live, f.marked, stack, t)} :: Passed(f.live, f.marked, stack, t))
  }

  /** The marked paths are closed under extension. */
  lemma {:induction false} MarkedExtends(f: Forest, end: Trace -> nat, t: Trace, u: Trace)
    requires Growing(f, end, []) && t in f.marked && u in f.live && Extends(u, t)
    ensures u in f.marked
    decreases |u|
  {
    if u != t {
      assert Rooted(f.live, end, u);
      MarkedExtends(f, end, t, Parent(u));
      assert Passed(f.live, f.marked, [], u);
    }
  }

  /** The children that `p` points to. */
  function Children(f: Forest, end: Trace -> nat, p: Trace): seq<Trace> {
    var a, b := p + [Edge(end(p), true)], p + [Edge(end(p), false)];
    (if a in f.linked then [a] else []) + (if b in f.linked then [b] else [])
  }

  /** `p` is marked, and what it points to is put on the stack. */
  function Marked(f: Forest, end: Trace -> nat, p: Trace): Forest {
    Forest(f.live, f.linked - (set c | c in Children(f, end, p)), f.marked + {p})
  }

  lemma {:induction false} ChildAmong(f: Forest, end: Trace -> nat, p: Trace, t: Trace)
    requires t != [] && Parent(t) == p && t[|t| - 1].src == end(p) && t in f.linked
    ensures t in Children(f, end, p)
  {
    assert t == p + [t[|t| - 1]];
  }

  lemma {:induction false} MarkStep(f: Forest, end: Trace -> nat, stack: seq<Trace>, p: Trace)
    requires Growing(f, end, stack + [p]) && p in f.live && p !in f.marked
    ensures Growing(Marked(f, end, p), end, stack + Children(f, end, p))
  {
    var f', stack' := Marked(f, end, p), stack + Children(f, end, p);
    forall t ensures Points(f'.live, f'.linked, f'.marked, t) && Passed(f'.live, f'.marked, stack', t) {
      assert Passed(f.live, f.marked, stack + [p], t) && Points(f.live, f.linked, f.marked, t);
      if t in f.live && t != [] && Parent(t) == p && t in f.linked {
        assert Rooted(f.live, end, t);
        ChildAmong(f, end, p, t);
      }
    }
    forall t ensures Rooted(f'.live, end, t) {
      assert Rooted(f.live, end, t);
    }
  }

  lemma {:induction false} MarkSkip(f: Forest, end: Trace -> nat, stack: seq<Trace>, p: Trace)
    requires Growing(f, end, stack + [p]) && p in f.marked
    ensures Growing(f, end, stack)
  {
    forall t ensures Passed(f.live, f.marked, stack, t) {
      assert Passed(f.live, f.marked, stack + [p], t);
    }
  }

  ghost function Subtree(live: set<Trace>, t: Trace): set<Trace> { set u | u in live && Extends(u, t) }

  ghost predicate AllIn(stack: seq<Trace>, s: set<Trace>) { forall i :: 0 <= i < |stack| ==> stack[i] in s }

  lemma {:induction false} ChildrenIn(f: Forest, end: Trace -> nat, stack: seq<Trace>, p: Trace, t: Trace)
    requires Growing(f, end, stack + [p]) && AllIn(stack, Subtree(f.live, t)) && p in Subtree(f.live, t)
    ensures AllIn(stack + Children(f, end, p), Subtree(f.live, t))
  {
    forall b: bool
      ensures Extends(p + [Edge(end(p), b)], t)
      ensures p + [Edge(end(p), b)] in f.linked ==> p + [Edge(end(p), b)] in f.live
    {
      assert Points(f.live, f.linked, f.marked, p + [Edge(end(p), b)]);
      assert (p + [Edge(end(p), b)])[..|t|] == p[..|t|];
    }
  }

  /** Every marked path is unsatisfiable. */
  ghost predicate Sound(p: Program, marked: set<Trace>) { forall t :: t in marked ==> !Feasible(p, t) }

  lemma {:induction false} CoreInfeasible(p: Program, t: Trace, core: set<Name>)
    requires Core(p, t, core)
    ensures !Feasible(p, t)
  {
    forall m ensures !Satisfies(p, t, m) {
      assert !SatisfiesCore(p, t, core, m);
    }
  }

  lemma {:induction false} CutSound(p: Program, t: Trace, core: set<Name>, live: set<Trace>)
    requires p.Valid() && Core(p, t, core) && Settled(p, t, core)
    ensures Sound(p, Pruned(live, t, core))
  {
    forall u | u in Pruned(live, t, core) ensures !Feasible(p, u) {
      if BoundsSettled(p, t, core) {
        CutInfeasible(p, t, core, u);
      } else if Feasible(p, u) {
        Monotone(p, Cut(t, core), u);
      }
    }
  }

  /** What `apply_unsat_core` marks for the extension `x` of a living path. */
  ghost function Pruned(live: set<Trace>, x: Trace, core: set<Name>): set<Trace> {
    var c := Cut(x, core);
    if c == [] || c == x then {} else Subtree(live, c)
  }

  /** What a refuted path comes with: it is unsatisfiable, as by the check of the bounds that names its last
  branch only; and where the core names an earlier branch it is a core, with settled bounds. */
  ghost predicate Justified(p: Program, t: Trace, core: set<Name>) {
    && !Feasible(p, t)
    && (Cut(t, core) == [] || Cut(t, core) == t || (Core(p, t, core) && Settled(p, t, core)))
  }

  lemma {:induction false} JustifiedSound(p: Program, t: Trace, core: set<Name>, live: set<Trace>)
    requires p.Valid() && Justified(p, t, core)
    ensures Sound(p, Pruned(live, t, core))
  {
    if Core(p, t, core) && Settled(p, t, core) {
      CutSound(p, t, core, live);
    }
  }

  lemma {:induction false} PrefixLive(f: Forest, end: Trace -> nat, t: Trace, k: nat)
    requires Growing(f, end, []) && t in f.live && k <= |t|
    ensures t[..k] in f.live
    decreases |t|
  {
    if k < |t| {
      assert Rooted(f.live, end, t);
      PrefixLive(f, end, Parent(t), k);
      assert Parent(t)[..k] == t[..k];
    } else {
      assert t[..k] == t;
    }
  }

  lemma {:induction false} CutNamed(x: Trace, core: set<Name>)
    ensures Cut(x, core) != [] ==> Branch(x[|Cut(x, core)| - 1]) in core
  {
    var c := Cut(x, core);
    if c != [] {
      assert c[|c| - 1] == x[|c| - 1];
    }
  }

  /** The cut is found by going back from the end. */
  lemma {:induction false} CutFound(x: Trace, core: set<Name>, k: nat)
    requires k < |x| && Branch(x[k]) in core && forall i :: k < i < |x| ==> Branch(x[i]) !in core
    ensures Cut(x, core) == x[..k + 1]
  {
    CutNamed(x, core);
  }

  lemma {:induction false} NoCut(x: Trace, core: set<Name>)
    requires forall i :: 0 <= i < |x| ==> Branch(x[i]) !in core
    ensures Cut(x, core) == []
  {
    CutNamed(x, core);
  }

  class PathTree {
    var f: Forest
    const end: Trace -> nat            // the block a path ends in
    ghost const program: Program

    ghost predicate Valid() reads this {
      Growing(f, end, []) && program.Valid() && Sound(program, f.marked)
    }

    constructor (end: Trace -> nat, ghost program: Program)
      requires program.Valid()
      ensures Valid() && f == Forest({[]}, {}, {}) && this.program == program && this.end == end
    {
      this.end, this.program, f := end, program, Forest({[]}, {}, {});
    }

    /** `mark_unsat`: a depth-first search over the pointers marks exactly the living extensions of `t`. */
    method MarkUnsat(t: Trace)
      requires Growing(f, end, []) && t in f.live
      modifies this`f
      ensures Growing(f, end, []) && f.live == old(f.live)
      ensures f.marked == old(f.marked) + Subtree(f.live, t)
    {
      ghost var all := Subtree(f.live, t);
      var stack := [t];
      StartMark(f, end, t);
      while stack != []
        invariant Growing(f, end, stack) && f.live == old(f.live) && AllIn(stack, all)
        invariant old(f.marked) <= f.marked <= old(f.marked) + all && (t in f.marked || t in stack)
        decreases |f.live - f.marked|, |stack|
      {
        var p := stack[|stack| - 1];
        ghost var rest := stack[..|stack| - 1];
        assert stack == rest + [p];
        stack := stack[..|stack| - 1];
        if p in f.marked {
          MarkSkip(f, end, rest, p);
        } else {
          MarkStep(f, end, rest, p);
          ChildrenIn(f, end, rest, p, t);
          Fewer(f.live, f.marked, p);
          stack := stack + Children(f, end, p);
          f := Marked(f, end, p);
        }
      }
      forall u | u in all ensures u in f.marked {
        MarkedExtends(f, end, t, u);
      }
    }

    /** `apply_unsat_core`, for the extension of `t` by `e`: back to the last branch that the core names. */
    method ApplyUnsatCore(t: Trace, e: Edge, core: set<Name>)
      requires Growing(f, end, []) && t in f.live && e.src == end(t)
      modifies this`f
      ensures Growing(f, end, []) && f.live == old(f.live)
      ensures f.marked == old(f.marked) + Pruned(f.live, t + [e], core)
    {
      ghost var x := t + [e];
      var p, b := t, e.taken;
      var first := true;
      var n := t;
      while true
        invariant |p| <= |t| && p == x[..|p|] && p in f.live && f == old(f)
        invariant first ==> p == t
        invariant !first ==> |p| < |t| && n == x[..|p| + 1] && n in f.live
        invariant x[|p|] == Edge(end(p), b)
        invariant forall i :: |p| < i < |x| ==> Branch(x[i]) !in core
        decreases |p|
      {
        if Branch(Edge(end(p), b)) in core {
          CutFound(x, core, |p|);
          if !first {
            MarkUnsat(n);
          }
          return;
        }
        if p == [] {
          NoCut(x, core);
          return;
        }
        assert Rooted(f.live, end, p);
        b := p[|p| - 1].taken;
        n := p;
        first := false;
        p := p[..|p| - 1];
      }
    }

    /** `extend`: a path is given up only if it is unsatisfiable. A core is there if the solver said no. */
    method Extend(t: Trace, e: Edge, checked: bool, core: set<Name>) returns (possible: bool)
      requires Valid() && t in f.live && e.src == end(t)
      requires checked ==> Justified(program, t + [e], core)
      modifies this`f
      ensures Valid()
      ensures possible <==> t !in old(f.marked) && (t + [e] in old(f.live) || !checked)
      ensures !possible ==> !Feasible(program, t + [e])
      ensures possible ==> f.live == old(f.live) + {t + [e]} && f.marked == old(f.marked)
      ensures !possible ==> f.live == old(f.live)
      ensures !possible ==> f.marked == old(f.marked) + if t in old(f.marked) then {} else Pruned(f.live, t + [e], core)
    {
      assert Points(f.live, f.linked, f.marked, t + [e]) && Parent(t + [e]) == t;
      if t + [e] in f.linked {
        return true;
      }
      if t in f.marked {
        Inherit(program, t, e);
        return false;
      }
      if checked {
        JustifiedSound(program, t + [e], core, f.live);
        ApplyUnsatCore(t, e, core);
        return false;
      }
      NewPath(f, end, t, e);
      f := Forest(f.live + {t + [e]}, f.linked + {t + [e]}, f.marked);
      return true;
    }

    /** `check`: the solver refutes a complete path. */
    method Refute(t: Trace, core: set<Name>)
      requires Valid() && t in f.live && t != []
      requires Justified(program, t, core)
      modifies this`f
      ensures Valid() && f.live == old(f.live) && t in f.marked
      ensures f.marked == old(f.marked) + Pruned(f.live, t, core) + Subtree(f.live, t)
    {
      assert Rooted(f.live, end, t);
      assert t == Parent(t) + [t[|t| - 1]];
      JustifiedSound(program, t, core, f.live);
      ApplyUnsatCore(Parent(t), t[|t| - 1], core);
      SubtreeSound(program, f.live, t);
      MarkUnsat(t);
      assert Extends(t, t);
    }
  }

  lemma {:induction false} StartMark(f: Forest, end: Trace -> nat, t: Trace)
    requires Growing(f, end, []) && t in f.live
    ensures Growing(f, end, [t]) && AllIn([t], Subtree(f.live, t))
  {
    forall u ensures Passed(f.live, f.marked, [t], u) {
      assert Passed(f.live, f.marked, [], u);
    }
    assert Extends(t, t);
  }

  lemma {:induction false} Fewer(live: set<Trace>, marked: set<Trace>, p: Trace)
    requires p in live && p !in marked
    ensures |live - (marked + {p})| < |live - marked|
  {
    assert live - marked == (live - (marked + {p})) + {p};
  }

  lemma {:induction false} Inherit(p: Program, t: Trace, e: Edge)
    requires p.Valid() && !Feasible(p, t)
    ensures !Feasible(p, t + [e])
  {
    if Feasible(p, t + [e]) {
      assert Extends(t + [e], t);
      Monotone(p, t, t + [e]);
    }
  }

  lemma {:induction false} SubtreeSound(p: Program, live: set<Trace>, t: Trace)
    requires p.Valid() && !Feasible(p, t)
    ensures Sound(p, Subtree(live, t))
  {
    forall u | u in Subtree(live, t) ensures !Feasible(p, u) {
      if Feasible(p, u) {
        Monotone(p, t, u);
      }
    }
  }

  lemma {:induction false} NewPath(f: Forest, end: Trace -> nat, t: Trace, e: Edge)
    requires Growing(f, end, []) && t in f.live && t !in f.marked && t + [e] !in f.live && e.src == end(t)
    ensures Growing(Forest(f.live + {t + [e]}, f.linked + {t + [e]}, f.marked), end, [])
  {
    var f' := Forest(f.live + {t + [e]}, f.linked + {t + [e]}, f.marked);
    assert Parent(t + [e]) == t;
    forall u
      ensures Rooted(f'.live, end, u) && Points(f'.live, f'.linked, f'.marked, u)
      ensures Passed(f'.live, f'.marked, [], u)
    {
      assert Rooted(f.live, end, u) && Points(f.live, f.linked, f.marked, u) && Passed(f.live, f.marked, [], u);
    }
  }
}
