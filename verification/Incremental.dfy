/** `sat_strategy::incremental`: the solver keeps one scope per assumption and reuses what two queries share. */
module Incremental {
  import opened Wrappers

  /** The SMT solver: `solve` answers for a list of assertions, `holds` says what a model satisfies. */
  datatype Oracle<!E, !M> = Oracle(holds: (M, E) -> bool, solve: seq<E> -> Option<M>)

  ghost predicate AllHold<E, M>(o: Oracle<E, M>, m: M, es: seq<E>) {
    forall i :: 0 <= i < |es| ==> o.holds(m, es[i])
  }

  ghost predicate Satisfiable<E, M(!new)>(o: Oracle<E, M>, es: seq<E>) {
    exists m :: AllHold(o, m, es)
  }

  /** The solver's answer for `es` is right. */
  ghost predicate Right<E, M(!new)>(o: Oracle<E, M>, es: seq<E>) {
    if o.solve(es).Some? then AllHold(o, o.solve(es).value, es) else !Satisfiable(o, es)
  }

  ghost predicate Trusted<E(!new), M(!new)>(o: Oracle<E, M>) {
    forall es: seq<E> {:trigger o.solve(es)} :: Right(o, es)
  }

  lemma {:induction false} SolveRight<E(!new), M(!new)>(o: Oracle<E, M>, es: seq<E>)
    requires Trusted(o)
    ensures if o.solve(es).Some? then AllHold(o, o.solve(es).value, es) else !Satisfiable(o, es)
  {
    assert Right(o, es);
  }

  lemma {:induction false} PrefixHolds<E, M>(o: Oracle<E, M>, m: M, es: seq<E>, k: nat)
    requires AllHold(o, m, es) && k <= |es|
    ensures AllHold(o, m, es[..k])
  {
  }

  /** What contradicts itself does so with more assumptions. */
  lemma {:induction false} PrefixUnsat<E, M(!new)>(o: Oracle<E, M>, es: seq<E>, k: nat)
    requires k <= |es| && !Satisfiable(o, es[..k])
    ensures !Satisfiable(o, es)
  {
    forall m ensures !AllHold(o, m, es) {
      if AllHold(o, m, es) {
        PrefixHolds(o, m, es, k);
      }
    }
  }

  /** A named assumption. Two assumptions are equal if their expressions are, whatever their names. */
  datatype Assumption<E, N> = Assumption(e: E, id: N)

  function Exprs<E, N>(s: seq<Assumption<E, N>>): (r: seq<E>)
    ensures |r| == |s| && forall i :: 0 <= i < |s| ==> r[i] == s[i].e
  {
    if s == [] then [] else Exprs(s[..|s| - 1]) + [s[|s| - 1].e]
  }

  lemma {:induction false} ExprsPrefix<E, N>(s: seq<Assumption<E, N>>, k: nat)
    requires k <= |s|
    ensures Exprs(s[..k]) == Exprs(s)[..k]
  {
  }

  function Ids<E, N>(s: seq<Assumption<E, N>>): set<N> { set i | 0 <= i < |s| :: s[i].id }

  /** Behind the first `k` no beginning of up to `n` assertions contradicts itself. */
  ghost predicate SatTo<E, M(!new)>(o: Oracle<E, M>, es: seq<E>, k: nat, n: int) {
    forall j {:trigger Satisfiable(o, es[..j])} :: k < j <= n && j <= |es| ==> Satisfiable(o, es[..j])
  }

  lemma {:induction false} SatToMore<E, M(!new)>(o: Oracle<E, M>, es: seq<E>, e: E, k: nat)
    requires SatTo(o, es, k, |es|)
    ensures SatTo(o, es + [e], k, |es|)
    ensures Satisfiable(o, es + [e]) ==> SatTo(o, es + [e], k, |es| + 1)
  {
    var fs := es + [e];
    forall j | k < j <= |es| ensures Satisfiable(o, fs[..j]) {
      assert fs[..j] == es[..j];
    }
    assert fs[..|es| + 1] == fs;
  }

  // What two queries share.

  /** The length of the common beginning, as far as expressions go. */
  function Common<E(==), N>(stack: seq<Assumption<E, N>>, query: seq<Assumption<E, N>>): (k: nat)
    ensures k <= |stack| && k <= |query| && forall i :: 0 <= i < k ==> stack[i].e == query[i].e
    ensures k < |stack| && k < |query| ==> stack[k].e != query[k].e
  {
    if stack != [] && query != [] && stack[0].e == query[0].e then
      var k := Common(stack[1..], query[1..]);
      assert forall i :: 0 < i < k + 1 ==> stack[i] == stack[1..][i - 1] && query[i] == query[1..][i - 1];
      assert k < |stack[1..]| && k < |query[1..]| ==> stack[k + 1] == stack[1..][k] && query[k + 1] == query[1..][k];
      k + 1
    else 0
  }

  lemma {:induction false} CommonIs<E, N>(stack: seq<Assumption<E, N>>, query: seq<Assumption<E, N>>, k: nat)
    requires k <= |stack| && k <= |query| && forall i :: 0 <= i < k ==> stack[i].e == query[i].e
    requires k < |stack| && k < |query| ==> stack[k].e != query[k].e
    ensures k == Common(stack, query)
  {
  }

  /** The query as the stack would hold it: what was there already keeps its names. */
  function Held<E(==), N>(stack: seq<Assumption<E, N>>, query: seq<Assumption<E, N>>): (r: seq<Assumption<E, N>>)
    ensures |r| == |query| && forall i :: 0 <= i < |r| ==> r[i].e == query[i].e
  {
    stack[..Common(stack, query)] + query[Common(stack, query)..]
  }

  /** `s` holds the query, up to some point behind the common beginning. */
  ghost predicate Begun<E, N>(stack: seq<Assumption<E, N>>, query: seq<Assumption<E, N>>, s: seq<Assumption<E, N>>) {
    Common(stack, query) <= |s| <= |query| && s == Held(stack, query)[..|s|]
  }

  lemma {:induction false} BegunExprs<E, N>(stack: seq<Assumption<E, N>>, query: seq<Assumption<E, N>>,
                                            s: seq<Assumption<E, N>>)
    requires Begun(stack, query, s)
    ensures Exprs(s) == Exprs(query)[..|s|]
    ensures |s| == |query| ==> Exprs(s) == Exprs(query) && s == Held(stack, query)
  {
  }

  /** What was found on the stack has the names of the query there. */
  ghost predicate OwnNames<E, N>(stack: seq<Assumption<E, N>>, query: seq<Assumption<E, N>>) {
    forall i :: 0 <= i < Common(stack, query) ==> stack[i].id == query[i].id
  }

  /** The stack holds the query's own assumptions exactly if those found there have the query's names; and it
  holds names of the query only exactly if all that were found there are such. */
  lemma {:induction false} NamesExact<E, N>(stack: seq<Assumption<E, N>>, query: seq<Assumption<E, N>>,
                                            s: seq<Assumption<E, N>>)
    requires Begun(stack, query, s)
    ensures s == query[..|s|] <==> OwnNames(stack, query)
    ensures Ids(s) <= Ids(query[..|s|]) <==>
            forall i :: 0 <= i < Common(stack, query) ==> stack[i].id in Ids(query[..|s|])
  {
    var k, q := Common(stack, query), query[..|s|];
    assert forall i :: 0 <= i < k ==> s[i] == stack[i];
    forall i | k <= i < |s| ensures s[i] == q[i] && s[i].id in Ids(q) {
      assert s[i] == query[i];
    }
    assert forall i :: 0 <= i < |s| ==> q[i] == query[i] && s[i].id in Ids(s);
    if OwnNames(stack, query) {
      forall i | 0 <= i < |s| ensures s[i] == q[i] {
        if i < k {
          assert stack[i].e == query[i].e;
        }
      }
    }
  }

  /** The assumptions of the query that are named in `core`. */
  ghost predicate NamedHold<E, N, M>(holds: (M, E) -> bool, query: seq<Assumption<E, N>>, core: set<N>, m: M) {
    forall i :: 0 <= i < |query| && query[i].id in core ==> holds(m, query[i].e)
  }

  ghost predicate BeginningHolds<E, N, M>(holds: (M, E) -> bool, query: seq<Assumption<E, N>>, n: nat, m: M) {
    forall i :: 0 <= i < n && i < |query| ==> holds(m, query[i].e)
  }

  /** Whatever the expressions mean, if the first `n` assumptions of the query contradict each other then so do
  those that `core` names. */
  ghost predicate Blames<E(!new), N, M(!new)>(holds: (M, E) -> bool, query: seq<Assumption<E, N>>, n: nat,
                                              core: set<N>) {
    (forall m :: !BeginningHolds(holds, query, n, m)) ==> forall m :: !NamedHold(holds, query, core, m)
  }

  /** A core blames the right assumptions, whatever they mean, exactly if it names all that contradict each other. */
  lemma {:induction false} BlameExact<E(!new), N, M(!new)>(query: seq<Assumption<E, N>>, n: nat, core: set<N>, some: M)
    requires n <= |query| && forall i, j :: 0 <= i < j < |query| ==> query[i].e != query[j].e
    ensures Ids(query[..n]) <= core <==>
            forall holds: (M, E) -> bool {:trigger Blames(holds, query, n, core)} :: Blames(holds, query, n, core)
  {
    if Ids(query[..n]) <= core {
      forall holds: (M, E) -> bool ensures Blames(holds, query, n, core) {
        forall m | NamedHold(holds, query, core, m) ensures BeginningHolds(holds, query, n, m) {
          forall i | 0 <= i < n ensures holds(m, query[i].e) {
            assert query[..n][i].id in Ids(query[..n]);
          }
        }
      }
    } else {
      var j :| 0 <= j < n && query[..n][j].id !in core;
      var holds := (m: M, e: E) => e != query[j].e;
      assert forall m: M :: !holds(m, query[j].e);
      assert NamedHold(holds, query, core, some);
      assert !Blames(holds, query, n, core);
    }
  }

  /** `sat_checker`: a stack of scopes, each with one assertion. */
  class Checker<E, M> {
    const oracle: Oracle<E, M>
    var scopes: seq<E>

    constructor (oracle: Oracle<E, M>)
      ensures this.oracle == oracle && scopes == []
    {
      this.oracle, scopes := oracle, [];
    }

    method Reset()
      modifies this
      ensures scopes == []
    {
      scopes := [];
    }

    method Push(e: E)
      modifies this
      ensures scopes == old(scopes) + [e]
    {
      scopes := scopes + [e];
    }

    method Pop(n: nat)
      requires n <= |scopes|
      modifies this
      ensures scopes == old(scopes)[..|old(scopes)| - n]
    {
      scopes := scopes[..|scopes| - n];
    }
  }

  datatype Answer<M, N> = Sat(model: M) | Unsat(core: set<N>)

  class IncrementalStrategy<E(==, !new), N(==, !new), M(!new)> {
    const c: Checker<E, M>
    var minimize: Option<nat>
    var model: Option<M>
    var stack: seq<Assumption<E, N>>

    /** The scopes of the solver mirror the stack, and a cached model satisfies all of it. */
    ghost predicate Valid()
      reads this, c
    {
      && c.scopes == Exprs(stack)
      && (model.Some? ==> AllHold(c.oracle, model.value, Exprs(stack)))
    }

    constructor (oracle: Oracle<E, M>)
      ensures Valid() && fresh(c) && c.oracle == oracle && stack == [] && minimize == None && model == None
    {
      c := new Checker(oracle);
      minimize, model, stack := None, None, [];
    }

    method Cut(k: nat)
      requires k <= |stack| && c.scopes == Exprs(stack)
      modifies this`stack, c
      ensures c.scopes == Exprs(stack) && stack == old(stack)[..k]
    {
      ExprsPrefix(stack, k);
      c.Pop(|stack| - k);
      stack := stack[..k];
    }

    /** The leading assumptions of the query that are on the stack already. */
    method Match(query: seq<Assumption<E, N>>) returns (k: nat)
      ensures k == Common(stack, query)
    {
      k := 0;
      while k < |query| && k < |stack| && query[k].e == stack[k].e
        invariant k <= |query| && k <= |stack| && forall i :: 0 <= i < k ==> stack[i].e == query[i].e
      {
        k := k + 1;
      }
      CommonIs(stack, query, k);
    }

    /** Pushes the rest of the query, up to the first assumption that contradicts what is there. */
    method Extend(query: seq<Assumption<E, N>>, k: nat) returns (sat: bool)
      requires k <= |query| && c.scopes == Exprs(stack) && |stack| == k
      requires Trusted(c.oracle)
      modifies this`stack, c
      ensures c.scopes == Exprs(stack) && k <= |stack| <= |query| && stack == old(stack) + query[k..|stack|]
      ensures if sat then |stack| == |query| else |stack| > k && !Satisfiable(c.oracle, Exprs(stack))
      ensures SatTo(c.oracle, Exprs(stack), k, if sat then |stack| else |stack| - 1)
    {
      var n := k;
      while n < |query|
        invariant k <= n <= |query| && |stack| == n && c.scopes == Exprs(stack)
        invariant stack == old(stack) + query[k..n] && SatTo(c.oracle, Exprs(stack), k, n)
      {
        SatToMore(c.oracle, Exprs(stack), query[n].e, k);
        OneMore(old(stack), query, k, n);
        c.Push(query[n].e);
        stack := stack + [query[n]];
        n := n + 1;
        SolveRight(c.oracle, c.scopes);
        if c.oracle.solve(c.scopes).None? {
          return false;
        }
      }
      return true;
    }

    /** Makes the stack that of the query, up to the first contradiction. A model of a longer stack will do. */
    method Align(query: seq<Assumption<E, N>>) returns (sat: bool, cached: bool)
      requires Valid() && Trusted(c.oracle)
      modifies this`stack, c
      ensures c.scopes == Exprs(stack)
      ensures cached <==> Reuses(old(stack), query, model)
      ensures cached ==> stack == old(stack) && AllHold(c.oracle, model.value, Exprs(query))
      ensures !cached ==> Begun(old(stack), query, stack)
      ensures !cached ==> if sat then |stack| == |query| else !Satisfiable(c.oracle, Exprs(stack))
      ensures !cached ==> Stops(c.oracle, old(stack), query, |stack|)
    {
      sat, cached := true, false;
      var k := Match(query);
      if k < |query| {
        Cut(k);
        sat := Extend(query, k);
        StopsHere(c.oracle, old(stack), query, stack, if sat then |stack| else |stack| - 1);
      } else if k < |stack| && model.Some? {
        CommonHolds(c.oracle, model.value, stack, query);
        cached := true;
      } else {
        Cut(k);
      }
    }

    /** `check_sat`: the answer is that of a solver started afresh, over any sequence of queries. The
    core has the names that the stack holds, for an unsatisfiable beginning of the query. */
    method CheckSat(assumptions: seq<Assumption<E, N>>, bounds: seq<Assumption<E, N>>, minimize: Option<nat>)
      returns (r: Answer<M, N>)
      requires Valid() && Trusted(c.oracle)
      requires this.minimize != minimize ==> minimize.Some?
      requires bounds != [] <==> minimize.Some?
      modifies this, c
      ensures Valid() && this.minimize == minimize
      ensures Correct(c.oracle, if old(this.minimize) != minimize then [] else old(stack), assumptions + bounds,
                      stack, r)
      ensures model == if r.Sat? then Some(r.model) else None
      ensures r.Sat? ==> if this.minimize == old(this.minimize) && Reuses(old(stack), assumptions + bounds, old(model))
                         then stack == old(stack) && model == old(model)
                         else stack == Held(if old(this.minimize) != minimize then [] else old(stack),
                                            assumptions + bounds)
    {
      if this.minimize != minimize {
        c.Reset();
        stack := [];
        this.minimize := minimize;
      }
      r := Solve(assumptions + bounds);
    }

    /** After the comparison of what is minimised. */
    method Solve(query: seq<Assumption<E, N>>) returns (r: Answer<M, N>)
      requires Valid() && Trusted(c.oracle)
      modifies this`stack, this`model, c
      ensures Valid() && Correct(c.oracle, old(stack), query, stack, r)
      ensures model == if r.Sat? then Some(r.model) else None
      ensures r.Sat? ==> if Reuses(old(stack), query, old(model)) then stack == old(stack) && model == old(model)
                         else stack == Held(old(stack), query)
    {
      var sat, cached := Align(query);
      if cached {
        SatCorrect(c.oracle, old(stack), query, stack, model.value);
        return Sat(model.value);
      }
      BegunExprs(old(stack), query, stack);
      if sat {
        SolveRight(c.oracle, c.scopes);
        model := c.oracle.solve(c.scopes);
        if model.Some? {
          SatCorrect(c.oracle, old(stack), query, stack, model.value);
          return Sat(model.value);
        }
      }
      model := None;
      UnsatCorrect(c.oracle, old(stack), query, stack);
      return Unsat(Ids(stack));
    }
  }

  /** The stack goes on behind the query, and a model of all of it is at hand. */
  predicate Reuses<E(==), N, M>(stack0: seq<Assumption<E, N>>, query: seq<Assumption<E, N>>, model: Option<M>) {
    Common(stack0, query) == |query| < |stack0| && model.Some?
  }

  /** The solver is asked after each assumption behind the common beginning, and the first that contradicts what
  is there is the last one pushed. */
  ghost predicate Stops<E, N, M(!new)>(o: Oracle<E, M>, stack0: seq<Assumption<E, N>>, query: seq<Assumption<E, N>>,
                                       n: nat) {
    && SatTo(o, Exprs(query), Common(stack0, query), n - 1)
    && (Common(stack0, query) < |query| ==> Common(stack0, query) < n)
  }

  /** So the answer is for the shortest beginning that contradicts itself, if what was found there does not. */
  lemma {:induction false} ShortestExact<E, N, M(!new)>(o: Oracle<E, M>, stack0: seq<Assumption<E, N>>,
                                                        query: seq<Assumption<E, N>>, stack: seq<Assumption<E, N>>,
                                                        core: set<N>, n: nat)
    requires Correct(o, stack0, query, stack, Unsat(core)) && n <= |query|
    requires Satisfiable(o, Exprs(query)[..Common(stack0, query)])
    ensures Satisfiable(o, Exprs(query)[..n]) <==> n < |stack|
  {
    var es, k := Exprs(query), Common(stack0, query);
    if n <= k {
      assert es[..k][..n] == es[..n];
      if !Satisfiable(o, es[..n]) {
        PrefixUnsat(o, es[..k], n);
      }
    } else if n >= |stack| {
      assert es[..n][..|stack|] == es[..|stack|];
      PrefixUnsat(o, es[..n], |stack|);
    }
  }

  /** `r` is the right answer to `query` after the stack was `stack0`: a model of it, or the names of what the
  stack then holds, where the first assumptions of the query contradict each other. */
  ghost predicate Correct<E, N, M(!new)>(o: Oracle<E, M>, stack0: seq<Assumption<E, N>>, query: seq<Assumption<E, N>>,
                                         stack: seq<Assumption<E, N>>, r: Answer<M, N>) {
    && (r.Sat? <==> Satisfiable(o, Exprs(query)))
    && (r.Sat? ==> AllHold(o, r.model, Exprs(query)))
    && (r.Unsat? ==> r.core == Ids(stack) && Begun(stack0, query, stack))
    && (r.Unsat? ==> !Satisfiable(o, Exprs(query)[..|stack|]) && Stops(o, stack0, query, |stack|))
  }

  lemma {:induction false} StopsHere<E, N, M(!new)>(o: Oracle<E, M>, stack0: seq<Assumption<E, N>>,
                                                    query: seq<Assumption<E, N>>, stack: seq<Assumption<E, N>>, n: nat)
    requires Begun(stack0, query, stack) && |stack| > Common(stack0, query) && |stack| - 1 <= n <= |stack|
    requires SatTo(o, Exprs(stack), Common(stack0, query), n)
    ensures Stops(o, stack0, query, |stack|)
  {
    BegunExprs(stack0, query, stack);
    forall j | Common(stack0, query) < j <= |stack| - 1 ensures Satisfiable(o, Exprs(query)[..j]) {
      assert Exprs(query)[..j] == Exprs(stack)[..j];
    }
  }

  lemma {:induction false} OneMore<E, N>(s: seq<Assumption<E, N>>, query: seq<Assumption<E, N>>, k: nat, n: nat)
    requires k <= n < |query|
    ensures s + query[k..n] + [query[n]] == s + query[k..n + 1]
    ensures Exprs(s + query[k..n] + [query[n]]) == Exprs(s + query[k..n]) + [query[n].e]
  {
  }

  /** A model of all that the stack holds is one of the query that the stack begins with. */
  lemma {:induction false} CommonHolds<E, N, M>(o: Oracle<E, M>, m: M, stack: seq<Assumption<E, N>>,
                                                query: seq<Assumption<E, N>>)
    requires AllHold(o, m, Exprs(stack)) && Common(stack, query) == |query|
    ensures AllHold(o, m, Exprs(query))
  {
    forall i | 0 <= i < |query| ensures o.holds(m, Exprs(query)[i]) {
      assert Exprs(query)[i] == Exprs(stack)[i];
    }
  }

  lemma {:induction false} SatCorrect<E, N, M(!new)>(o: Oracle<E, M>, stack0: seq<Assumption<E, N>>,
                                                     query: seq<Assumption<E, N>>, stack: seq<Assumption<E, N>>, m: M)
    requires AllHold(o, m, Exprs(query))
    ensures Correct(o, stack0, query, stack, Sat(m))
  {
  }

  lemma {:induction false} UnsatCorrect<E, N, M(!new)>(o: Oracle<E, M>, stack0: seq<Assumption<E, N>>,
                                                       query: seq<Assumption<E, N>>, stack: seq<Assumption<E, N>>)
    requires Begun(stack0, query, stack) && !Satisfiable(o, Exprs(stack)) && Stops(o, stack0, query, |stack|)
    ensures Correct(o, stack0, query, stack, Unsat(Ids(stack)))
  {
    BegunExprs(stack0, query, stack);
    PrefixUnsat(o, Exprs(query), |stack|);
  }
}
