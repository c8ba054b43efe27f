/** `exec::check_sat` and `apply_unsat_core` together: names that the incremental strategy kept from another
path decide which paths are given up. */
module Blame {
  import opened Dag
  import opened Pruning
  import Incremental
  import opened Wrappers

  /** What is assumed on a path: the claim of a branch, or a bound of the packet size. */
  datatype Fact = Claim(c: nat) | AtLeast(v: nat) | AtMost(v: nat)

  type Query = seq<Incremental.Assumption<Fact, Name>>

  predicate Holds(p: Program, m: nat, f: Fact) {
    match f
    case Claim(c) => p.holds(m, c)
    case AtLeast(v) => v <= p.size(m)
    case AtMost(v) => p.size(m) <= v
  }

  ghost predicate Speaks(o: Incremental.Oracle<Fact, nat>, p: Program) {
    Incremental.Trusted(o) && forall m, f :: o.holds(m, f) <==> Holds(p, m, f)
  }

  /** `a` is assumed on the path `t`, under its own name. */
  ghost predicate Assumed(p: Program, t: Trace, a: Incremental.Assumption<Fact, Name>) {
    match a.id
    case Branch(e) => exists i :: 0 <= i < |t| && t[i] == e && a.e == Claim(p.claim(t[..i + 1]))
    case MinValue => a.e == AtLeast(p.low(t))
    case MaxValue => a.e == AtMost(p.high(t))
  }

  /** Branches without an own assumption, because they were folded or repeat another, are left out. */
  ghost predicate Asks(p: Program, t: Trace, query: Query) {
    forall i :: 0 <= i < |query| ==> Assumed(p, t, query[i])
  }

  lemma {:induction false} AssumedHolds(p: Program, t: Trace, core: set<Name>, m: nat,
                                        a: Incremental.Assumption<Fact, Name>)
    requires Assumed(p, t, a) && a.id in core && SatisfiesCore(p, t, core, m)
    ensures Holds(p, m, a.e)
  {
    if a.id.Branch? {
      var i :| 0 <= i < |t| && t[i] == a.id.edge && a.e == Claim(p.claim(t[..i + 1]));
      assert Claims(p, t, m, i);
    }
  }

  /** A core that names all of a contradictory beginning of the query is one of the path. */
  lemma {:induction false} NamedCore(o: Incremental.Oracle<Fact, nat>, p: Program, t: Trace, query: Query, n: nat,
                                     core: set<Name>)
    requires Speaks(o, p) && Asks(p, t, query) && n <= |query|
    requires !Incremental.Satisfiable(o, Incremental.Exprs(query)[..n]) && Incremental.Ids(query[..n]) <= core
    ensures Core(p, t, core)
  {
    forall m ensures !SatisfiesCore(p, t, core, m) {
      if SatisfiesCore(p, t, core, m) {
        forall i | 0 <= i < n ensures o.holds(m, Incremental.Exprs(query)[..n][i]) {
          assert query[..n][i].id in Incremental.Ids(query[..n]);
          AssumedHolds(p, t, core, m, query[i]);
        }
        assert Incremental.AllHold(o, m, Incremental.Exprs(query)[..n]);
      }
    }
  }

  /** A path that the solver refutes is unsatisfiable, whatever the names. */
  lemma {:induction false} Refuted(o: Incremental.Oracle<Fact, nat>, p: Program, t: Trace, stack0: Query,
                                   query: Query, stack: Query, core: set<Name>)
    requires Speaks(o, p) && Asks(p, t, query)
    requires Incremental.Correct(o, stack0, query, stack, Incremental.Unsat(core))
    ensures !Feasible(p, t)
  {
    assert query[..|query|] == query;
    Incremental.PrefixUnsat(o, Incremental.Exprs(query), |stack|);
    assert Incremental.Exprs(query)[..|query|] == Incremental.Exprs(query);
    NamedCore(o, p, t, query, |query|, Incremental.Ids(query));
    CoreInfeasible(p, t, Incremental.Ids(query));
  }

  /** If what was found on the stack has the names of the query, the answer is a core of the path; and if its
  bounds are settled too, the path can be given up with it. */
  lemma {:induction false} OwnNamesJustify(o: Incremental.Oracle<Fact, nat>, p: Program, t: Trace, stack0: Query,
                                           query: Query, stack: Query, core: set<Name>)
    requires Speaks(o, p) && Asks(p, t, query)
    requires Incremental.Correct(o, stack0, query, stack, Incremental.Unsat(core))
    requires Incremental.OwnNames(stack0, query)
    ensures Core(p, t, core) && (Settled(p, t, core) ==> Justified(p, t, core))
  {
    Incremental.NamesExact(stack0, query, stack);
    NamedCore(o, p, t, query, |stack|, core);
    CoreInfeasible(p, t, core);
  }

  // What may be given up after such an answer.

  predicate Makes(p: Program, c: Trace, k: nat, x: nat)
    requires k < |c|
  {
    p.claim(c[..k + 1]) == x
  }

  /** The path `c` alone makes sure of `f`. */
  ghost predicate Implied(p: Program, c: Trace, f: Fact) {
    match f
    case Claim(x) => exists k :: 0 <= k < |c| && Makes(p, c, k, x)
    case AtLeast(v) => v <= p.low(c)
    case AtMost(v) => p.high(c) <= v
  }

  /** What is marked needs no reason, or makes sure of the whole contradictory beginning, or has no packet size. */
  ghost predicate Supported(p: Program, t: Trace, core: set<Name>, query: Query, n: nat)
    requires n <= |query|
  {
    var c := Cut(t, core);
    c == [] || c == t || p.low(c) > p.high(c) || forall i :: 0 <= i < n ==> Implied(p, c, query[i].e)
  }

  /** The first `n` assumptions contradict each other. */
  ghost predicate Contradicts(p: Program, query: Query, n: nat)
    requires n <= |query|
  {
    forall m :: !Begins(p, query, n, m)
  }

  ghost predicate Begins(p: Program, query: Query, n: nat, m: nat)
    requires n <= |query|
  {
    forall i :: 0 <= i < n ==> Holds(p, m, query[i].e)
  }

  /** The same paths with the same bounds and claims, whatever these mean. */
  ghost predicate Alike(p: Program, q: Program) { q.claim == p.claim && q.low == p.low && q.high == p.high }

  /** There is a model for each packet size. */
  ghost predicate Free(q: Program) { forall m :: q.size(m) == m }

  ghost predicate MarksRight(q: Program, t: Trace, core: set<Name>, query: Query, n: nat, live: set<Trace>)
    requires n <= |query|
  {
    q.Valid() && Contradicts(q, query, n) ==> Sound(q, Pruned(live, t, core))
  }

  /** What branches are named for are claims. */
  ghost predicate Claimed(s: Query) { forall i :: 0 <= i < |s| && s[i].id.Branch? ==> s[i].e.Claim? }

  lemma {:induction false} SupportedMarks(p: Program, t: Trace, core: set<Name>, query: Query, n: nat, live: set<Trace>)
    requires p.Valid() && n <= |query| && Supported(p, t, core, query, n) && Contradicts(p, query, n)
    ensures Sound(p, Pruned(live, t, core))
  {
    var c := Cut(t, core);
    forall u | u in Pruned(live, t, core) ensures !Feasible(p, u) {
      if Feasible(p, u) {
        Monotone(p, c, u);
        var m :| Satisfies(p, c, m);
        forall i | 0 <= i < n ensures Holds(p, m, query[i].e) {
          ImpliedHolds(p, c, m, query[i].e);
        }
        assert Begins(p, query, n, m);
      }
    }
  }

  lemma {:induction false} ImpliedHolds(p: Program, c: Trace, m: nat, f: Fact)
    requires Satisfies(p, c, m) && Implied(p, c, f)
    ensures Holds(p, m, f)
  {
    if f.Claim? {
      var k :| 0 <= k < |c| && Makes(p, c, k, f.c);
      assert Claims(p, c, m, k);
    }
  }

  /** A claim stands in the beginning, if the core made of it names a branch. */
  lemma {:induction false} SomeClaim(stack0: Query, query: Query, n: nat, e: Edge) returns (j: nat)
    requires n <= |query| && Claimed(stack0) && Claimed(query)
    requires Branch(e) in Incremental.Ids(Incremental.Held(stack0, query)[..n])
    ensures j < n && query[j].e.Claim?
  {
    var held := Incremental.Held(stack0, query);
    j :| 0 <= j < |held[..n]| && held[..n][j].id == Branch(e);
    var k := Incremental.Common(stack0, query);
    assert held[j] == if j < k then stack0[j] else query[j];
  }

  /** A meaning in which everything claimed leaves one packet size, `s`, that an assumption excludes. */
  lemma {:induction false} SizeMisleads(p: Program, c: Trace, query: Query, n: nat, i: nat, j: nat, s: nat)
    returns (q: Program)
    requires p.Valid() && i < n <= |query| && j < n && query[j].e.Claim? && p.low(c) <= s <= p.high(c)
    requires (query[i].e.AtLeast? && s < query[i].e.v) || (query[i].e.AtMost? && query[i].e.v < s)
    ensures q.Valid() && Alike(p, q) && Free(q) && Contradicts(q, query, n) && Feasible(q, c)
  {
    q := p.(holds := (m, e) => m == s, size := m => m);
    assert Satisfies(q, c, s);
    forall m ensures !Begins(q, query, n, m) {
      assert !Holds(q, m, query[if m == s then i else j].e);
    }
  }

  /** One in which a claim that is not made on `c` never holds. */
  lemma {:induction false} ClaimMisleads(p: Program, c: Trace, query: Query, n: nat, i: nat) returns (q: Program)
    requires p.Valid() && i < n <= |query| && query[i].e.Claim? && !Implied(p, c, query[i].e) && p.low(c) <= p.high(c)
    ensures q.Valid() && Alike(p, q) && Free(q) && Contradicts(q, query, n) && Feasible(q, c)
  {
    var x := query[i].e.c;
    q := p.(holds := (m, e) => e != x, size := m => m);
    forall k | 0 <= k < |c| ensures Claims(q, c, p.low(c), k) {
      assert !Makes(p, c, k, x);
    }
    assert Satisfies(q, c, p.low(c));
    forall m ensures !Begins(q, query, n, m) {
      assert !Holds(q, m, query[i].e);
    }
  }

  lemma {:induction false} Misleads(p: Program, t: Trace, stack0: Query, query: Query, n: nat) returns (q: Program)
    requires p.Valid() && n <= |query| && Claimed(stack0) && Claimed(query)
    requires !Supported(p, t, Incremental.Ids(Incremental.Held(stack0, query)[..n]), query, n)
    ensures q.Valid() && Alike(p, q) && Free(q) && Contradicts(q, query, n)
    ensures Feasible(q, Cut(t, Incremental.Ids(Incremental.Held(stack0, query)[..n])))
  {
    var core := Incremental.Ids(Incremental.Held(stack0, query)[..n]);
    var c := Cut(t, core);
    var i :| 0 <= i < n && !Implied(p, c, query[i].e);
    if query[i].e.Claim? {
      q := ClaimMisleads(p, c, query, n, i);
    } else {
      var j := SomeClaim(stack0, query, n, c[|c| - 1]);
      q := SizeMisleads(p, c, query, n, i, j, if query[i].e.AtLeast? then p.low(c) else p.high(c));
    }
  }

  /** The names of the stack, up to the contradiction that the strategy found, as the core: what is marked is
  unsatisfiable, whatever the claims mean, exactly if it is supported. */
  lemma {:induction false} MarkingExact(p: Program, t: Trace, stack0: Query, query: Query, n: nat)
    requires p.Valid() && n <= |query| && Claimed(stack0) && Asks(p, t, query)
    ensures var core := Incremental.Ids(Incremental.Held(stack0, query)[..n]);
      Supported(p, t, core, query, n) <==>
        forall q, live {:trigger MarksRight(q, t, core, query, n, live)} ::
          Alike(p, q) && Free(q) ==> MarksRight(q, t, core, query, n, live)
  {
    var core := Incremental.Ids(Incremental.Held(stack0, query)[..n]);
    if Supported(p, t, core, query, n) {
      forall q, live | Alike(p, q) && Free(q) ensures MarksRight(q, t, core, query, n, live) {
        if q.Valid() && Contradicts(q, query, n) {
          AlikeSupported(p, q, t, core, query, n);
          SupportedMarks(q, t, core, query, n, live);
        }
      }
    } else {
      AsksClaimed(p, t, query);
      var q := Misleads(p, t, stack0, query, n);
      var c := Cut(t, core);
      assert Extends(c, c);
      assert c in Pruned({c}, t, core);
      assert !MarksRight(q, t, core, query, n, {c});
    }
  }

  lemma {:induction false} AsksClaimed(p: Program, t: Trace, query: Query)
    requires Asks(p, t, query)
    ensures Claimed(query)
  {
    forall i | 0 <= i < |query| && query[i].id.Branch? ensures query[i].e.Claim? {
      assert Assumed(p, t, query[i]);
    }
  }

  lemma {:induction false} AlikeSupported(p: Program, q: Program, t: Trace, core: set<Name>, query: Query, n: nat)
    requires n <= |query| && Alike(p, q) && Supported(p, t, core, query, n)
    ensures Supported(q, t, core, query, n)
  {
    var c := Cut(t, core);
    forall i | 0 <= i < n && Implied(p, c, query[i].e) ensures Implied(q, c, query[i].e) {
      if query[i].e.Claim? {
        var k :| 0 <= k < |c| && Makes(p, c, k, query[i].e.c);
        assert Makes(q, c, k, query[i].e.c);
      }
    }
  }

  /** So it is after an answer of the strategy. */
  lemma {:induction false} SupportedAnswer(o: Incremental.Oracle<Fact, nat>, p: Program, t: Trace, stack0: Query,
                                           query: Query, stack: Query, core: set<Name>, live: set<Trace>)
    requires Speaks(o, p) && p.Valid() && Incremental.Correct(o, stack0, query, stack, Incremental.Unsat(core))
    requires Supported(p, t, core, query, |stack|)
    ensures Sound(p, Pruned(live, t, core))
    ensures core == Incremental.Ids(Incremental.Held(stack0, query)[..|stack|])
  {
    var n := |stack|;
    forall m ensures !Begins(p, query, n, m) {
      if Begins(p, query, n, m) {
        forall i | 0 <= i < n ensures o.holds(m, Incremental.Exprs(query)[..n][i]) {
          assert Holds(p, m, query[i].e);
        }
        assert Incremental.AllHold(o, m, Incremental.Exprs(query)[..n]);
      }
    }
    SupportedMarks(p, t, core, query, n, live);
  }

  // Two paths with the same expression at different branches.

  const FIRST := Edge(0, true)
  const LARGE := Edge(1, true)
  const SMALL := Edge(1, false)
  const SECOND := Edge(2, true)
  const THIRD := Edge(3, true)

  const OLD: Trace := [FIRST, LARGE, SECOND]
  const NEW: Trace := [FIRST, SMALL, THIRD]

  /** Block 1 branches on the packet size, which is folded into the bounds; blocks 2 and 3 branch on the same
  expression, which contradicts that of block 0. */
  function Fork(): (p: Program) {
    Program(
      (t: Trace) => if t == [] || t[|t| - 1].src == 1 then 0
                    else if t[|t| - 1] in {FIRST, Edge(2, false), Edge(3, false)} then 1 else 2,
      (m: nat, c: nat) => c == 0 || (if c == 1 then m % 2 == 0 else m % 2 == 1),
      (m: nat) => m / 2,
      (t: Trace) => if |t| >= 2 && t[1] == LARGE then 64 else 0,
      (t: Trace) => if |t| >= 2 && t[1] == SMALL then 63 else 0x3FFF)
  }

  function ForkEnd(): Trace -> nat {
    (t: Trace) => if t == [] then 0 else if t[|t| - 1] == FIRST then 1 else if t[|t| - 1] == LARGE then 2
                  else if t[|t| - 1] == SMALL then 3 else 4
  }

  lemma {:induction false} ForkValid()
    ensures Fork().Valid()
  {
    forall t, u | Extends(u, t) ensures Fork().low(t) <= Fork().low(u) && Fork().high(u) <= Fork().high(t) {
      if |t| >= 2 {
        assert u[..|t|][1] == t[1];
      }
    }
  }

  function ForkQuery(second: Edge, low: nat, high: nat): Query {
    [Incremental.Assumption(Claim(1), Branch(FIRST)), Incremental.Assumption(Claim(2), Branch(second))]
    + ForkBounds(low, high)
  }

  function ForkBounds(low: nat, high: nat): Query {
    [Incremental.Assumption(AtLeast(low), MinValue), Incremental.Assumption(AtMost(high), MaxValue)]
  }

  lemma {:induction false} ForkAsks()
    ensures Asks(Fork(), OLD, ForkQuery(SECOND, 64, 0x3FFF)) && Asks(Fork(), NEW, ForkQuery(THIRD, 0, 63))
  {
    assert OLD[0] == NEW[0] == FIRST && OLD[2] == SECOND && NEW[2] == THIRD;
    assert Claim(1) == Claim(Fork().claim(OLD[..1])) && Claim(2) == Claim(Fork().claim(OLD[..3]));
    assert Claim(1) == Claim(Fork().claim(NEW[..1])) && Claim(2) == Claim(Fork().claim(NEW[..3]));
  }

  lemma {:induction false} ForkContradicts(o: Incremental.Oracle<Fact, nat>, second: Edge, low: nat, high: nat)
    requires Speaks(o, Fork())
    ensures !Incremental.Satisfiable(o, Incremental.Exprs(ForkQuery(second, low, high)))
    ensures forall n :: 0 <= n <= 1 ==>
      Incremental.Satisfiable(o, Incremental.Exprs(ForkQuery(second, low, high))[..n])
  {
    var es := Incremental.Exprs(ForkQuery(second, low, high));
    forall m ensures !Incremental.AllHold(o, m, es) {
      assert es[0] == Claim(1) && es[1] == Claim(2);
      assert !o.holds(m, es[0]) || !o.holds(m, es[1]);
    }
    forall n | 0 <= n <= 1 ensures Incremental.Satisfiable(o, es[..n]) {
      assert o.holds(0, Claim(1)) && es[0] == Claim(1);
      assert Incremental.AllHold(o, 0, es[..n]);
    }
  }

  lemma {:induction false} ForkReaches(o: Incremental.Oracle<Fact, nat>, stack0: Query, second: Edge, low: nat,
                                       high: nat, stack: Query, r: Incremental.Answer<nat, Name>)
    requires Speaks(o, Fork()) && Incremental.Correct(o, stack0, ForkQuery(second, low, high), stack, r)
    ensures r.Unsat? && 2 <= |stack| <= 4 && r.core == Incremental.Ids(stack)
    ensures stack == Incremental.Held(stack0, ForkQuery(second, low, high))[..|stack|]
  {
    ForkContradicts(o, second, low, high);
  }

  lemma {:induction false} ForkShares(stack: Query, n: nat)
    requires 2 <= n <= 4 && stack == ForkQuery(SECOND, 64, 0x3FFF)[..n]
    ensures Incremental.Held(stack, ForkQuery(THIRD, 0, 63)) == ForkQuery(SECOND, 64, 0x3FFF)[..2] + ForkBounds(0, 63)
  {
    assert forall i :: 0 <= i < n ==> stack[i] == ForkQuery(SECOND, 64, 0x3FFF)[i];
    Incremental.CommonIs(stack, ForkQuery(THIRD, 0, 63), 2);
  }

  lemma {:induction false} ForkIds(n: nat)
    requires 2 <= n <= 4
    ensures var core := Incremental.Ids((ForkQuery(SECOND, 64, 0x3FFF)[..2] + ForkBounds(0, 63))[..n]);
      Branch(FIRST) in core && Branch(SECOND) in core && Branch(SMALL) !in core && Branch(THIRD) !in core
  {
    var s := (ForkQuery(SECOND, 64, 0x3FFF)[..2] + ForkBounds(0, 63))[..n];
    assert s[0].id == Branch(FIRST) && s[1].id == Branch(SECOND);
    assert forall i :: 2 <= i < n ==> s[i] == ForkBounds(0, 63)[i - 2];
  }

  /** After the old path's query the new one's core has the old name. */
  lemma {:induction false} ForkCore(o: Incremental.Oracle<Fact, nat>, stack: Query, r: Incremental.Answer<nat, Name>,
                                    stack': Query, r': Incremental.Answer<nat, Name>)
    requires Speaks(o, Fork())
    requires Incremental.Correct(o, [], ForkQuery(SECOND, 64, 0x3FFF), stack, r)
    requires Incremental.Correct(o, stack, ForkQuery(THIRD, 0, 63), stack', r')
    ensures r'.Unsat? && Branch(FIRST) in r'.core && Branch(SECOND) in r'.core
    ensures Branch(SMALL) !in r'.core && Branch(THIRD) !in r'.core
  {
    ForkReaches(o, [], SECOND, 64, 0x3FFF, stack, r);
    ForkReaches(o, stack, THIRD, 0, 63, stack', r');
    FromNothing(ForkQuery(SECOND, 64, 0x3FFF));
    ForkShares(stack, |stack|);
    ForkIds(|stack'|);
  }

  lemma {:induction false} FromNothing(query: Query)
    ensures Incremental.Held([], query) == query
  {
  }

  lemma {:induction false} ForkFeasible()
    ensures Feasible(Fork(), [FIRST]) && Feasible(Fork(), [FIRST, SMALL])
  {
    var p := Fork();
    forall i | 0 <= i < 2 ensures Claims(p, [FIRST, SMALL], 0, i) {
      assert [FIRST, SMALL][..1] == [FIRST] && [FIRST, SMALL][..2] == [FIRST, SMALL];
    }
    assert Satisfies(p, [FIRST, SMALL], 0);
    ForkValid();
    assert Extends([FIRST, SMALL], [FIRST]);
    Monotone(p, [FIRST], [FIRST, SMALL]);
  }

  lemma {:induction false} ForkCut(core: set<Name>, live: set<Trace>)
    requires Branch(FIRST) in core && Branch(SMALL) !in core && Branch(THIRD) !in core && [FIRST] in live
    ensures [FIRST] in Pruned(live, NEW, core)
  {
    CutFound(NEW, core, 0);
    assert NEW[..1] == [FIRST] && Extends([FIRST], [FIRST]);
  }

  /** Two queries to the incremental strategy, and then the second core applied: the path behind block 0 is
  marked, which is satisfiable. */
  method Misled(o: Incremental.Oracle<Fact, nat>) returns (tree: PathTree)
    requires Speaks(o, Fork())
    ensures Asks(Fork(), OLD, ForkQuery(SECOND, 64, 0x3FFF)) && Asks(Fork(), NEW, ForkQuery(THIRD, 0, 63))
    ensures tree.program == Fork() && [FIRST] in tree.f.marked && Feasible(Fork(), [FIRST])
  {
    ForkAsks();
    var s := new Incremental.IncrementalStrategy<Fact, Name, nat>(o);
    var r := s.CheckSat(ForkQuery(SECOND, 64, 0x3FFF)[..2], ForkBounds(64, 0x3FFF), Some(0));
    ghost var stack := s.stack;
    assert ForkQuery(SECOND, 64, 0x3FFF)[..2] + ForkBounds(64, 0x3FFF) == ForkQuery(SECOND, 64, 0x3FFF);
    var r' := s.CheckSat(ForkQuery(THIRD, 0, 63)[..2], ForkBounds(0, 63), Some(0));
    assert ForkQuery(THIRD, 0, 63)[..2] + ForkBounds(0, 63) == ForkQuery(THIRD, 0, 63);
    ForkCore(o, stack, r, s.stack, r');
    tree := MarkBy(r'.core);
  }

  method MarkBy(core: set<Name>) returns (tree: PathTree)
    requires Branch(FIRST) in core && Branch(SMALL) !in core && Branch(THIRD) !in core
    ensures tree.program == Fork() && [FIRST] in tree.f.marked && Feasible(Fork(), [FIRST])
  {
    ForkValid();
    ForkFeasible();
    tree := new PathTree(ForkEnd(), Fork());
    assert [] + [FIRST] == [FIRST] && [FIRST] + [SMALL] == [FIRST, SMALL] && [FIRST, SMALL] + [THIRD] == NEW;
    var first := tree.Extend([], FIRST, false, {});
    var small := tree.Extend([FIRST], SMALL, false, {});
    ForkCut(core, tree.f.live);
    tree.ApplyUnsatCore([FIRST, SMALL], THIRD, core);
  }
}
