/** `orderered_completion_state`: results arrive in any order, callbacks run in the order of the indices. */
module Completion {

  /** A callback that waits for its turn. */
  datatype Entry = Entry(index: nat, callback: nat)

  /** How many callbacks have run, which are waiting (sorted by index, like the map), and the calls made. */
  datatype Order = Order(completed: nat, results: seq<Entry>, log: seq<nat>)

  const FRESH := Order(0, [], [])

  function Insert(rs: seq<Entry>, e: Entry): seq<Entry> {
    if rs == [] || e.index < rs[0].index then [e] + rs else [rs[0]] + Insert(rs[1..], e)
  }

  function Call(o: Order, c: nat): Order { Order(o.completed + 1, o.results, o.log + [c]) }

  /** The loop of `sync`: waiting callbacks whose turn has come. */
  function Drain(o: Order): Order
    decreases |o.results|
  {
    if o.results != [] && o.results[0].index == o.completed
    then Drain(Call(o.(results := o.results[1..]), o.results[0].callback))
    else o
  }

  function Submit(o: Order, index: nat, c: nat): Order {
    if index > o.completed then o.(results := Insert(o.results, Entry(index, c)))
    else Drain(Call(o, c))
  }

  /** `given[i]` is the callback handed over with index `i`. */
  ghost predicate Waiting(rs: seq<Entry>, least: nat, given: seq<nat>) {
    && (forall k :: 0 <= k < |rs| ==> least <= rs[k].index < |given| && rs[k].callback == given[rs[k].index])
    && (forall j, k :: 0 <= j < k < |rs| ==> rs[j].index < rs[k].index)
  }

  ghost predicate Called(o: Order, given: seq<nat>) {
    o.completed <= |given| && o.log == given[..o.completed]
  }

  ghost function Indices(rs: seq<Entry>): set<nat> { set k | 0 <= k < |rs| :: rs[k].index }

  /** The callbacks that ran are the first ones, each once and in order; the rest of those submitted wait. */
  ghost predicate Orderly(o: Order, given: seq<nat>, submitted: set<nat>) {
    && Called(o, given) && Waiting(o.results, o.completed + 1, given)
    && (forall i: nat :: i in submitted <==> i < o.completed || i in Indices(o.results))
  }

  lemma {:induction false} InsertWaiting(rs: seq<Entry>, least: nat, given: seq<nat>, e: Entry)
    requires Waiting(rs, least, given) && least <= e.index < |given| && e.callback == given[e.index]
    requires e.index !in Indices(rs)
    ensures Waiting(Insert(rs, e), least, given) && Indices(Insert(rs, e)) == Indices(rs) + {e.index}
  {
    if rs == [] || e.index < rs[0].index {
      assert Insert(rs, e) == [e] + rs;
      Cons(e, rs);
    } else {
      assert rs == [rs[0]] + rs[1..];
      Cons(rs[0], rs[1..]);
      assert rs[0].index in Indices(rs);
      assert Waiting(rs[1..], rs[0].index + 1, given);
      InsertWaiting(rs[1..], rs[0].index + 1, given, e);
      Cons(rs[0], Insert(rs[1..], e));
    }
  }

  lemma {:induction false} Cons(e: Entry, rs: seq<Entry>)
    ensures Indices([e] + rs) == Indices(rs) + {e.index}
  {
    var s := [e] + rs;
    assert s[0] == e;
    forall i | i in Indices(rs) ensures i in Indices(s) {
      var k :| 0 <= k < |rs| && rs[k].index == i;
      assert s[k + 1] == rs[k];
    }
    forall i | i in Indices(s) ensures i in Indices(rs) + {e.index} {
      var k :| 0 <= k < |s| && s[k].index == i;
      assert k > 0 ==> s[k] == rs[k - 1];
    }
  }

  /** Draining runs callbacks until the next one is missing. */
  lemma {:induction false} DrainOrderly(o: Order, given: seq<nat>, submitted: set<nat>)
    requires Called(o, given) && Waiting(o.results, o.completed, given)
    requires forall i: nat :: i in submitted <==> i < o.completed || i in Indices(o.results)
    ensures Orderly(Drain(o), given, submitted)
    decreases |o.results|
  {
    if o.results != [] && o.results[0].index == o.completed {
      var rest := o.results[1..];
      assert o.results == [o.results[0]] + rest;
      Cons(o.results[0], rest);
      var o' := Call(o.(results := rest), o.results[0].callback);
      assert o'.log == given[..o'.completed];
      DrainOrderly(o', given, submitted);
    } else {
      assert Waiting(o.results, o.completed + 1, given);
    }
  }

  /** Submitting keeps the order, whatever the order of submission. */
  lemma {:induction false} SubmitOrderly(o: Order, given: seq<nat>, submitted: set<nat>, index: nat)
    requires Orderly(o, given, submitted) && index < |given| && index !in submitted
    ensures Orderly(Submit(o, index, given[index]), given, submitted + {index})
  {
    if index > o.completed {
      InsertWaiting(o.results, o.completed + 1, given, Entry(index, given[index]));
    } else {
      var o' := Call(o, given[index]);
      assert o'.log == given[..o'.completed];
      DrainOrderly(o', given, submitted + {index});
    }
  }

  /** More callbacks may be handed over meanwhile. */
  lemma {:induction false} GivenGrows(o: Order, given: seq<nat>, submitted: set<nat>, c: nat)
    requires Orderly(o, given, submitted)
    ensures Orderly(o, given + [c], submitted)
  {
  }

  /** When all have been submitted, all have been called. */
  lemma {:induction false} AllCalled(o: Order, given: seq<nat>, submitted: set<nat>)
    requires Orderly(o, given, submitted) && forall i :: 0 <= i < |given| ==> i in submitted
    ensures o.log == given && o.results == []
  {
    WaitingBounds(o.results, o.completed + 1, given);
    assert o.completed !in submitted;
  }

  lemma {:induction false} WaitingBounds(rs: seq<Entry>, least: nat, given: seq<nat>)
    requires Waiting(rs, least, given)
    ensures rs != [] ==> least < |given|
    ensures forall i :: i in Indices(rs) ==> least <= i
  {
    if rs != [] {
      assert least <= rs[0].index < |given|;
    }
  }

  /** The state that `sync` updates under its mutex. */
  class CompletionState {
    var completed: nat
    var results: seq<Entry>
    ghost var log: seq<nat>

    constructor ()
      ensures Value() == FRESH
    {
      completed, results, log := 0, [], [];
    }

    ghost function Value(): Order reads this { Order(completed, results, log) }

    /** `sync(c, index)`. */
    method Sync(c: nat, index: nat)
      modifies this
      ensures Value() == Submit(old(Value()), index, c)
    {
      if index > completed {
        results := Insert(results, Entry(index, c));
        return;
      }
      log := log + [c];
      completed := completed + 1;
      while results != [] && results[0].index == completed
        invariant Drain(Value()) == Submit(old(Value()), index, c)
        decreases |results|
      {
        log := log + [results[0].callback];
        completed := completed + 1;
        results := results[1..];
      }
    }
  }
}
