/** `tpathq`: paths in the order of their cycles per byte, from one stream of paths per packet size.

Each stream is sorted by cycles alone. A path comes with the packet size it needs; the stream of a
size also holds paths that need less. The queue remembers how far down each stream has been read and
gives a path away only if nothing that is still to come can be worth more. */
module Threshold {
  import opened Streams
  import opened Ratios
  import opened Wrappers

  datatype Path = Path(id: nat, cycles: nat, size: nat, decided: bool)

  datatype Item = Item(key: Ratio, path: nat, decided: bool)

  type Incoming = map<nat, seq<Path>>

  function RatioOf(p: Path): Ratio { Ratio(p.cycles, p.size) }

  ghost predicate Leq(a: Ratio, b: Ratio) { AtMost(Worth(a), Worth(b)) }

  // The streams.

  ghost predicate FitsPath(p: Path) { p.cycles < WORD && 0 < p.size < WORD }

  ghost predicate Falling(ps: seq<Path>) {
    && (forall i :: 0 <= i < |ps| ==> FitsPath(ps[i]))
    && (forall i, j :: 0 <= i <= j < |ps| ==> ps[j].cycles <= ps[i].cycles)
  }

  /** A path is in the stream of a size it can do with: the sizes that are kept see to that. */
  ghost predicate AtHome(st: Incoming, p: Path) {
    p.cycles == 0 || exists s: nat, j: nat :: IsHome(st, p, s, j)
  }

  ghost predicate IsHome(st: Incoming, p: Path, s: nat, j: nat) {
    s in st && s <= p.size && j < |st[s]| && st[s][j].id == p.id && st[s][j].cycles == p.cycles
  }

  ghost predicate StreamsOk(st: Incoming) {
    && (forall s {:trigger Falling(st[s])} :: s in st ==> 0 < s < WORD && Falling(st[s]))
    && (forall s, i {:trigger AtHome(st, st[s][i])} :: s in st && 0 <= i < |st[s]| ==> AtHome(st, st[s][i]))
  }

  /** The worth of what was read last from a stream, for the size of that stream. */
  ghost function Frontier(ps: seq<Path>, s: nat, n: nat): Ratio
    requires n <= |ps|
  {
    if n == 0 then HIGHEST else Ratio(ps[n - 1].cycles, s)
  }

  /** How far each stream has been read. */
  ghost predicate Positions(st: Incoming, pos: map<nat, nat>, sizes: map<nat, Ratio>) {
    && st.Keys == pos.Keys == sizes.Keys
    && (forall s {:trigger Position(st, pos, sizes, s)} :: s in st ==> Position(st, pos, sizes, s))
  }

  ghost predicate Position(st: Incoming, pos: map<nat, nat>, sizes: map<nat, Ratio>, s: nat) {
    && s in st && s in pos && s in sizes
    && pos[s] <= |st[s]| && sizes[s] == Frontier(st[s], s, pos[s])
  }

  /** Everything that was read is known. */
  ghost predicate Covered(st: Incoming, pos: map<nat, nat>, known: set<nat>) {
    forall s: nat, i: nat {:trigger HasCome(st, pos, s, i)} :: HasCome(st, pos, s, i) ==> st[s][i].id in known
  }

  ghost predicate HasCome(st: Incoming, pos: map<nat, nat>, s: nat, i: nat) {
    s in st && s in pos && i < |st[s]| && i < pos[s]
  }

  ghost predicate Limits(sizes: map<nat, Ratio>, limit: Ratio) {
    Leq(LOWEST, limit) && forall s {:trigger Leq(sizes[s], limit)} :: s in sizes ==> Leq(sizes[s], limit)
  }

  lemma {:induction false} LeqTransitive(a: Ratio, b: Ratio, c: Ratio)
    requires Leq(a, b) && Leq(b, c)
    ensures Leq(a, c)
  {
  }

  lemma {:induction false} NothingLowest(s: nat)
    requires s > 0
    ensures Leq(Ratio(0, s), LOWEST)
  {
  }

  lemma {:induction false} HomeBounded(ps: seq<Path>, h: nat, n: nat, j: nat, p: Path)
    requires Falling(ps) && n <= j < |ps| && ps[j].cycles == p.cycles && 0 < h <= p.size
    ensures Leq(RatioOf(p), Frontier(ps, h, n))
  {
    if n > 0 {
      WorthMonotone(p.cycles, p.size, ps[n - 1].cycles, h);
    }
  }

  /** The threshold argument: no path that is not known yet is worth more than the limit. */
  lemma {:induction false} UnknownBounded(st: Incoming, pos: map<nat, nat>, sizes: map<nat, Ratio>, limit: Ratio,
                                          known: set<nat>, s: nat, i: nat)
    requires StreamsOk(st) && Positions(st, pos, sizes) && Covered(st, pos, known) && Limits(sizes, limit)
    requires s in st && i < |st[s]| && st[s][i].id !in known
    ensures Leq(RatioOf(st[s][i]), limit)
  {
    var p := st[s][i];
    assert Falling(st[s]) && AtHome(st, p);
    if p.cycles == 0 {
      NothingLowest(p.size);
      LeqTransitive(RatioOf(p), LOWEST, limit);
    } else {
      var h: nat, j: nat :| IsHome(st, p, h, j);
      assert Falling(st[h]);
      assert Position(st, pos, sizes, h);
      assert j >= pos[h] by {
        assert !HasCome(st, pos, h, j);
      }
      HomeBounded(st[h], h, pos[h], j, p);
      LeqTransitive(RatioOf(p), sizes[h], limit);
    }
  }

  // The queues.

  ghost predicate Sorted(q: seq<Item>) {
    && (forall i :: 0 <= i < |q| ==> Fits(q[i].key))
    && (forall i, j :: 0 <= i < j < |q| ==> Leq(q[j].key, q[i].key))
  }

  ghost predicate InQueue(q: seq<Item>, id: nat) {
    exists i :: 0 <= i < |q| && q[i].path == id
  }

  /** `pathes` has exactly the queued paths and their keys, and no path is queued twice. */
  ghost predicate Indexed(q: seq<Item>, paths: map<nat, Ratio>) {
    && (forall i :: 0 <= i < |q| ==> q[i].path in paths && paths[q[i].path] == q[i].key)
    && (forall i, j :: 0 <= i < j < |q| ==> q[i].path != q[j].path)
    && (forall id {:trigger InQueue(q, id)} :: id in paths ==> InQueue(q, id))
  }

  ghost predicate Distinct(u: seq<Item>) {
    forall i, j :: 0 <= i < j < |u| ==> u[i].path != u[j].path
  }

  /** What is undecided is queued, and marked so. */
  ghost predicate Pending(u: seq<Item>, q: seq<Item>) {
    Distinct(u) && forall i :: 0 <= i < |u| ==> !u[i].decided && u[i] in q
  }

  function Inserted(q: seq<Item>, at: nat, x: Item): seq<Item>
    requires at <= |q|
  {
    q[..at] + [x] + q[at..]
  }

  function Removed(q: seq<Item>, at: nat): seq<Item>
    requires at < |q|
  {
    q[..at] + q[at + 1..]
  }

  /** `multimap::emplace`: behind everything that is worth at least as much. */
  method Emplace(q: seq<Item>, x: Item) returns (r: seq<Item>, ghost at: nat)
    requires Sorted(q) && Fits(x.key)
    ensures at <= |q| && r == Inserted(q, at, x) && Sorted(r)
  {
    var i := 0;
    while i < |q|
      invariant i <= |q|
      invariant forall k :: 0 <= k < i ==> Leq(x.key, q[k].key)
    {
      var less := Compare(q[i].key, x.key);
      if less {
        break;
      }
      i := i + 1;
    }
    at := i;
    r := q[..i] + [x] + q[i..];
    InsertedSorted(q, i, x);
  }

  lemma {:induction false} InsertedSorted(q: seq<Item>, at: nat, x: Item)
    requires Sorted(q) && Fits(x.key) && at <= |q|
    requires forall k :: 0 <= k < at ==> Leq(x.key, q[k].key)
    requires at < |q| ==> Leq(q[at].key, x.key)
    ensures Sorted(Inserted(q, at, x))
  {
    var r := Inserted(q, at, x);
    forall i, j | 0 <= i < j < |r| ensures Leq(r[j].key, r[i].key) {
      if i == at && j > at + 1 {
        assert Leq(q[j - 1].key, q[at].key);
      }
    }
  }

  lemma {:induction false} InsertedIndexed(q: seq<Item>, at: nat, x: Item, paths: map<nat, Ratio>)
    requires Indexed(q, paths) && at <= |q| && x.path !in paths
    ensures Indexed(Inserted(q, at, x), paths[x.path := x.key])
  {
    var r, paths' := Inserted(q, at, x), paths[x.path := x.key];
    assert r[at] == x;
    forall id | id in paths' ensures InQueue(r, id) {
      if id != x.path {
        assert InQueue(q, id);
        var k :| 0 <= k < |q| && q[k].path == id;
        assert r[if k < at then k else k + 1].path == id;
      }
    }
  }

  lemma {:induction false} RemovedIndexed(q: seq<Item>, at: nat, paths: map<nat, Ratio>)
    requires Indexed(q, paths) && at < |q|
    ensures Indexed(Removed(q, at), paths - {q[at].path})
  {
    var r, paths' := Removed(q, at), paths - {q[at].path};
    forall i, j | 0 <= i < j < |r| ensures r[i].path != r[j].path {
      assert r[i] == q[if i < at then i else i + 1] && r[j] == q[if j < at then j else j + 1];
    }
    forall i | 0 <= i < |r| ensures r[i].path in paths' && paths'[r[i].path] == r[i].key {
      assert r[i] == q[if i < at then i else i + 1];
    }
    forall id | id in paths' ensures InQueue(r, id) {
      assert InQueue(q, id);
      var k :| 0 <= k < |q| && q[k].path == id;
      assert r[if k < at then k else k - 1].path == id;
    }
  }

  lemma {:induction false} RemovedSorted(q: seq<Item>, at: nat)
    requires Sorted(q) && at < |q|
    ensures Sorted(Removed(q, at))
  {
    var r := Removed(q, at);
    forall i, j | 0 <= i < j < |r| ensures Leq(r[j].key, r[i].key) {
      assert r[i] == q[if i < at then i else i + 1] && r[j] == q[if j < at then j else j + 1];
    }
  }

  /** What was pending still is after another item came or went. */
  lemma {:induction false} PendingKept(u: seq<Item>, q: seq<Item>, r: seq<Item>)
    requires Pending(u, q) && forall x :: x in u && x in q ==> x in r
    ensures Pending(u, r)
  {
  }

  ghost predicate QueuesOk(q: seq<Item>, u: seq<Item>, paths: map<nat, Ratio>) {
    Sorted(q) && Indexed(q, paths) && Sorted(u) && Pending(u, q)
  }

  lemma {:induction false} PushDecided(q: seq<Item>, u: seq<Item>, paths: map<nat, Ratio>, at: nat, x: Item)
    requires QueuesOk(q, u, paths) && at <= |q| && x.path !in paths && Sorted(Inserted(q, at, x))
    ensures QueuesOk(Inserted(q, at, x), u, paths[x.path := x.key])
    ensures x in Inserted(q, at, x)
  {
    InsertedIndexed(q, at, x, paths);
    PendingKept(u, q, Inserted(q, at, x));
  }

  lemma {:induction false} PushUndecided(q: seq<Item>, r: seq<Item>, u: seq<Item>, paths: map<nat, Ratio>,
                                         at: nat, x: Item)
    requires Indexed(q, paths) && x.path !in paths && !x.decided && Pending(u, q)
    requires at <= |u| && Pending(u, r) && x in r
    ensures Pending(Inserted(u, at, x), r)
  {
    var u' := Inserted(u, at, x);
    forall i | 0 <= i < |u| ensures u[i].path != x.path {
      assert u[i] in q;
    }
    forall i | 0 <= i < |u'| ensures !u'[i].decided && u'[i] in r {
      assert u'[i] == if i < at then u[i] else if i == at then x else u[i - 1];
    }
  }

  // What was given away.

  ghost predicate Below(r: Ratio, firsts: seq<Ratio>) {
    firsts == [] || Leq(r, firsts[|firsts| - 1])
  }

  ghost predicate Nonincreasing(firsts: seq<Ratio>) {
    forall i, j :: 0 <= i < j < |firsts| ==> Leq(firsts[j], firsts[i])
  }

  ghost predicate QueueBelow(q: seq<Item>, taken: set<nat>, firsts: seq<Ratio>) {
    forall i :: 0 <= i < |q| ==> q[i].path in taken || Below(q[i].key, firsts)
  }

  ghost predicate UnknownBelow(st: Incoming, known: set<nat>, firsts: seq<Ratio>) {
    forall s, i {:trigger Below(RatioOf(st[s][i]), firsts)} :: s in st && 0 <= i < |st[s]| ==>
      st[s][i].id in known || Below(RatioOf(st[s][i]), firsts)
  }

  /** Nothing that has not been given away is worth more than `r`. */
  ghost predicate Dominates(st: Incoming, q: seq<Item>, known: set<nat>, r: Ratio) {
    && (forall i :: 0 <= i < |q| ==> Leq(q[i].key, r))
    && (forall s, i :: s in st && 0 <= i < |st[s]| ==> st[s][i].id in known || Leq(RatioOf(st[s][i]), r))
  }

  lemma {:induction false} PushBelow(q: seq<Item>, at: nat, x: Item, taken: set<nat>, firsts: seq<Ratio>)
    requires QueueBelow(q, taken, firsts) && at <= |q| && (x.path in taken || Below(x.key, firsts))
    ensures QueueBelow(Inserted(q, at, x), taken, firsts)
  {
    var r := Inserted(q, at, x);
    forall i | 0 <= i < |r| ensures r[i].path in taken || Below(r[i].key, firsts) {
      assert r[i] == if i < at then q[i] else if i == at then x else q[i - 1];
    }
  }

  /** The first queued path, if it is worth the limit, is worth as much as all that has not been given away. */
  lemma {:induction false} FrontDominates(st: Incoming, pos: map<nat, nat>, sizes: map<nat, Ratio>, limit: Ratio,
                                          known: set<nat>, q: seq<Item>)
    requires StreamsOk(st) && Positions(st, pos, sizes) && Covered(st, pos, known) && Limits(sizes, limit)
    requires q != [] && Sorted(q) && Leq(limit, q[0].key)
    ensures Dominates(st, q, known, q[0].key)
  {
    forall s, i | s in st && 0 <= i < |st[s]| ensures st[s][i].id in known || Leq(RatioOf(st[s][i]), q[0].key) {
      if st[s][i].id !in known {
        UnknownBounded(st, pos, sizes, limit, known, s, i);
        LeqTransitive(RatioOf(st[s][i]), limit, q[0].key);
      }
    }
  }

  lemma {:induction false} TakeQueues(q: seq<Item>, u: seq<Item>, paths: map<nat, Ratio>)
    requires QueuesOk(q, u, paths) && q != [] && q[0].decided
    ensures QueuesOk(q[1..], u, paths - {q[0].path})
  {
    assert Removed(q, 0) == q[1..];
    RemovedIndexed(q, 0, paths);
    RemovedSorted(q, 0);
    PendingRest(u, q);
  }

  lemma {:induction false} PendingRest(u: seq<Item>, q: seq<Item>)
    requires Pending(u, q) && q != [] && q[0].decided
    ensures Pending(u, q[1..])
  {
    forall i | 0 <= i < |u| ensures !u[i].decided && u[i] in q[1..] {
      var k :| 0 <= k < |q| && q[k] == u[i];
      assert q[1..][k - 1] == u[i];
    }
  }

  lemma {:induction false} TakeGiven(st: Incoming, q: seq<Item>, known: set<nat>, taken: set<nat>, firsts: seq<Ratio>)
    requires q != [] && Nonincreasing(firsts) && QueueBelow(q, taken, firsts)
    requires Dominates(st, q, known, q[0].key) && q[0].path !in taken
    ensures Nonincreasing(firsts + [q[0].key])
    ensures QueueBelow(q[1..], taken + {q[0].path}, firsts + [q[0].key])
    ensures UnknownBelow(st, known, firsts + [q[0].key])
  {
    var last := firsts + [q[0].key];
    assert last[|last| - 1] == q[0].key;
    forall i, j | 0 <= i < j < |last| ensures Leq(last[j], last[i]) {
      if j == |firsts| {
        assert Below(q[0].key, firsts);
        if i < |firsts| - 1 {
          LeqTransitive(last[j], firsts[|firsts| - 1], firsts[i]);
        }
      }
    }
  }

  /** A path that came before is given away again. */
  lemma {:induction false} TakeAgain(q: seq<Item>, taken: set<nat>, firsts: seq<Ratio>)
    requires q != [] && QueueBelow(q, taken, firsts)
    ensures QueueBelow(q[1..], taken + {q[0].path}, firsts)
  {
  }

  lemma {:induction false} FrontierFits(st: Incoming, pos: map<nat, nat>, sizes: map<nat, Ratio>, s: nat)
    requires StreamsOk(st) && Positions(st, pos, sizes) && s in st
    ensures Fits(sizes[s])
  {
    assert Position(st, pos, sizes, s);
    if pos[s] > 0 {
      assert Falling(st[s]) && FitsPath(st[s][pos[s] - 1]);
    }
  }

  lemma {:induction false} LowestLeast()
    ensures Leq(LOWEST, LOWEST)
  {
  }

  /** `order` lists the sizes, each once. */
  ghost predicate InOrder(order: seq<nat>, st: Incoming) {
    && (forall s :: s in st <==> s in order)
    && (forall i, j :: 0 <= i < j < |order| ==> order[i] != order[j])
  }

  ghost predicate AdvancedBy(pos: map<nat, nat>, s: nat, n: nat, pos': map<nat, nat>) {
    s in pos && pos' == pos[s := pos[s] + n]
  }

  ghost predicate SameBut(sizes: map<nat, Ratio>, s: nat, sizes': map<nat, Ratio>) {
    s in sizes' && sizes' == sizes[s := sizes'[s]]
  }

  ghost predicate LimitsUpTo(order: seq<nat>, k: nat, sizes: map<nat, Ratio>, limit: Ratio) {
    Leq(LOWEST, limit) && forall n :: 0 <= n < k && n < |order| ==> order[n] in sizes && Leq(sizes[order[n]], limit)
  }

  lemma {:induction false} LimitsStep(order: seq<nat>, k: nat, sizes: map<nat, Ratio>, limit: Ratio,
                                      sizes': map<nat, Ratio>, limit': Ratio)
    requires k < |order| && LimitsUpTo(order, k, sizes, limit)
    requires SameBut(sizes, order[k], sizes')
    requires Leq(limit, limit') && Leq(sizes'[order[k]], limit')
    ensures LimitsUpTo(order, k + 1, sizes', limit')
  {
    forall n | 0 <= n < k + 1 ensures order[n] in sizes' && Leq(sizes'[order[n]], limit') {
      if n < k && order[n] != order[k] {
        LeqTransitive(sizes[order[n]], limit, limit');
      }
    }
    LeqTransitive(LOWEST, limit, limit');
  }

  lemma {:induction false} LimitsEnd(order: seq<nat>, sizes: map<nat, Ratio>, limit: Ratio)
    requires LimitsUpTo(order, |order|, sizes, limit) && forall s :: s in sizes ==> s in order
    ensures Limits(sizes, limit)
  {
    forall s | s in sizes ensures Leq(sizes[s], limit) {
      var n :| 0 <= n < |order| && order[n] == s;
    }
  }

  ghost predicate ReadUpTo(order: seq<nat>, k: nat, before: map<nat, nat>, pos: map<nat, nat>, chunks: Incoming) {
    && before.Keys == pos.Keys
    && (forall n :: 0 <= n < |order| ==>
          order[n] in pos && order[n] in chunks
          && pos[order[n]] == before[order[n]] + if n < k then |chunks[order[n]]| else 0)
  }

  lemma {:induction false} ReadStep(order: seq<nat>, st: Incoming, k: nat, before: map<nat, nat>, pos: map<nat,
                                    nat>, pos': map<nat, nat>, chunks: Incoming)
    requires k < |order| && ReadUpTo(order, k, before, pos, chunks)
    requires InOrder(order, st)
    requires AdvancedBy(pos, order[k], |chunks[order[k]]|, pos')
    ensures ReadUpTo(order, k + 1, before, pos', chunks)
  {
  }

  lemma {:induction false} Onward(pos0: map<nat, nat>, pos1: map<nat, nat>, pos2: map<nat, nat>, s: nat, n: nat,
               sizes0: map<nat, Ratio>, sizes1: map<nat, Ratio>, sizes2: map<nat, Ratio>)
    requires AdvancedBy(pos0, s, n, pos1) && AdvancedBy(pos1, s, 1, pos2)
    requires SameBut(sizes0, s, sizes1) && SameBut(sizes1, s, sizes2)
    ensures AdvancedBy(pos0, s, n + 1, pos2) && SameBut(sizes0, s, sizes2)
  {
  }

  lemma {:induction false} ReadOne(st: Incoming, pos: map<nat, nat>, sizes: map<nat, Ratio>, known: set<nat>,
                                   s: nat, known': set<nat>)
    requires Positions(st, pos, sizes) && Covered(st, pos, known) && s in st && pos[s] < |st[s]|
    requires known' == known + {st[s][pos[s]].id}
    ensures Positions(st, pos[s := pos[s] + 1], sizes[s := Ratio(st[s][pos[s]].cycles, s)])
    ensures Covered(st, pos[s := pos[s] + 1], known')
    ensures AdvancedBy(pos, s, 1, pos[s := pos[s] + 1])
    ensures SameBut(sizes, s, sizes[s := Ratio(st[s][pos[s]].cycles, s)])
  {
    var pos', sizes' := pos[s := pos[s] + 1], sizes[s := Ratio(st[s][pos[s]].cycles, s)];
    forall r | r in st ensures Position(st, pos', sizes', r) {
      assert Position(st, pos, sizes, r);
    }
    forall r: nat, i: nat | HasCome(st, pos', r, i) ensures st[r][i].id in known' {
      assert HasCome(st, pos, r, i) ==> st[r][i].id in known;
    }
  }

  lemma {:induction false} KnowMore(st: Incoming, known: set<nat>, known': set<nat>, firsts: seq<Ratio>)
    requires UnknownBelow(st, known, firsts) && known <= known'
    ensures UnknownBelow(st, known', firsts)
  {
  }

  /** A path was handed out for a check and the answer is still missing. */
  ghost predicate Awaited(q: seq<Item>, u: seq<Item>, paths: map<nat, Ratio>, p: nat) {
    p in paths && Item(paths[p], p, false) in q && Item(paths[p], p, false) !in u
  }

  ghost predicate IsNext(ps: seq<Path>, n: nat, chunk: seq<Path>) {
    n + |chunk| <= |ps| && chunk == ps[n..n + |chunk|]
  }

  method FindItem(q: seq<Item>, x: Item) returns (f: nat)
    requires x in q
    ensures f < |q| && q[f] == x
  {
    f := 0;
    while q[f] != x
      invariant f < |q| && x in q[f..]
      decreases |q| - f
    {
      f := f + 1;
    }
  }

  lemma {:induction false} AdjustBelow(q: seq<Item>, f: nat, n: Ratio, taken: set<nat>, firsts: seq<Ratio>)
    requires QueueBelow(q, taken, firsts) && f < |q|
    requires n.cycles == q[f].key.cycles && 0 < q[f].key.size <= n.size
    ensures q[f].path in taken || Below(n, firsts)
    ensures QueueBelow(Removed(q, f), taken, firsts)
    ensures QueueBelow(q[f := Item(n, q[f].path, true)], taken, firsts)
  {
    WorthMonotone(n.cycles, n.size, n.cycles, q[f].key.size);
    if q[f].path !in taken && firsts != [] {
      LeqTransitive(n, q[f].key, firsts[|firsts| - 1]);
    }
    var r := Removed(q, f);
    forall i | 0 <= i < |r| ensures r[i].path in taken || Below(r[i].key, firsts) {
      assert r[i] == q[if i < f then i else i + 1];
    }
  }

  lemma {:induction false} AdjustMark(q: seq<Item>, u: seq<Item>, paths: map<nat, Ratio>, f: nat)
    requires QueuesOk(q, u, paths) && f < |q| && q[f] !in u
    ensures QueuesOk(q[f := Item(q[f].key, q[f].path, true)], u, paths)
  {
    var r := q[f := Item(q[f].key, q[f].path, true)];
    assert forall i :: 0 <= i < |q| ==> r[i].path == q[i].path && r[i].key == q[i].key;
    forall id | id in paths ensures InQueue(r, id) {
      assert InQueue(q, id);
      var k :| 0 <= k < |q| && q[k].path == id;
      assert r[k].path == id;
    }
    forall i | 0 <= i < |u| ensures u[i] in r {
      var k :| 0 <= k < |q| && q[k] == u[i];
      assert r[k] == u[i];
    }
  }

  lemma {:induction false} AdjustRemove(q: seq<Item>, u: seq<Item>, paths: map<nat, Ratio>, f: nat)
    requires QueuesOk(q, u, paths) && f < |q| && q[f] !in u
    ensures QueuesOk(Removed(q, f), u, paths - {q[f].path})
  {
    var r := Removed(q, f);
    RemovedIndexed(q, f, paths);
    RemovedSorted(q, f);
    forall i | 0 <= i < |u| ensures u[i] in r {
      var k :| 0 <= k < |q| && q[k] == u[i];
      assert r[if k < f then k else k - 1] == u[i];
    }
  }

  lemma {:induction false} InsertedContents(q: seq<Item>, at: nat, x: Item)
    requires at <= |q|
    ensures multiset(Inserted(q, at, x)) == multiset(q) + multiset{x}
  {
    assert q == q[..at] + q[at..];
  }

  lemma {:induction false} RemovedContents(q: seq<Item>, at: nat)
    requires at < |q|
    ensures multiset(Removed(q, at)) == multiset(q) - multiset{q[at]}
  {
    assert q == q[..at] + [q[at]] + q[at + 1..];
  }

  lemma {:induction false} KeysGrow(paths: map<nat, Ratio>, id: nat, r: Ratio)
    ensures (if id in paths then paths else paths[id := r]).Keys == paths.Keys + {id}
  {
  }

  /** The item is queued again with its new ratio. */
  lemma {:induction false} AdjustMoved(q: seq<Item>, u: seq<Item>, paths: map<nat, Ratio>, f: nat, n: Ratio,
                                       r: seq<Item>, at: nat, taken: set<nat>, firsts: seq<Ratio>)
    requires f < |q| && q[f].path in paths && at <= |q| - 1
    requires QueuesOk(Removed(q, f), u, paths - {q[f].path}) && QueueBelow(Removed(q, f), taken, firsts)
    requires r == Inserted(Removed(q, f), at, Item(n, q[f].path, true)) && Sorted(r)
    requires q[f].path in taken || Below(n, firsts)
    ensures QueuesOk(r, u, paths[q[f].path := n]) && QueueBelow(r, taken, firsts)
    ensures multiset(r) == multiset(q) - multiset{q[f]} + multiset{Item(n, q[f].path, true)}
    ensures paths[q[f].path := n].Keys == paths.Keys
  {
    var p := q[f].path;
    var x := Item(n, p, true);
    PushDecided(Removed(q, f), u, paths - {p}, at, x);
    PushBelow(Removed(q, f), at, x, taken, firsts);
    RemovedContents(q, f);
    InsertedContents(Removed(q, f), at, x);
    assert paths[p := n] == (paths - {p})[p := n];
  }

  /** What is queued, what of it waits for a decision, and the index of it. */
  datatype Store = Store(items: multiset<Item>, waiting: multiset<Item>, paths: map<nat, Ratio>)

  /** `push` of one path. */
  function Stored(st: Store, p: Path): Store {
    if p.id in st.paths then st
    else
      var x := Item(RatioOf(p), p.id, p.decided);
      Store(st.items + multiset{x}, if p.decided then st.waiting else st.waiting + multiset{x}, st.paths[p.id := x.key])
  }

  function StoredAll(st: Store, ps: seq<Path>): Store {
    if ps == [] then st else Stored(StoredAll(st, ps[..|ps| - 1]), ps[|ps| - 1])
  }

  /** `push` of the chunks of the first `k` sizes. */
  function StoredSizes(st: Store, order: seq<nat>, k: nat, chunks: Incoming): Store
    requires k <= |order|
  {
    if k == 0 then st
    else
      var before := StoredSizes(st, order, k - 1, chunks);
      if order[k - 1] in chunks then StoredAll(before, chunks[order[k - 1]]) else before
  }

  lemma {:induction false} StoredNext(st: Store, ps: seq<Path>, n: nat)
    requires n < |ps|
    ensures StoredAll(st, ps[..n + 1]) == Stored(StoredAll(st, ps[..n]), ps[n])
  {
    assert ps[..n + 1][..n] == ps[..n];
  }

  /** The limit is one of the ratios of the sizes, or the least. */
  ghost predicate Attained(order: seq<nat>, k: nat, sizes: map<nat, Ratio>, limit: Ratio) {
    limit == LOWEST || exists n :: 0 <= n < k && n < |order| && order[n] in sizes && sizes[order[n]] == limit
  }

  lemma {:induction false} AttainedStep(order: seq<nat>, k: nat, sizes: map<nat, Ratio>, limit: Ratio,
                                        sizes': map<nat, Ratio>, limit': Ratio)
    requires k < |order| && Attained(order, k, sizes, limit) && SameBut(sizes, order[k], sizes')
    requires forall i, j :: 0 <= i < j < |order| ==> order[i] != order[j]
    requires limit' == limit || limit' == sizes'[order[k]]
    ensures Attained(order, k + 1, sizes', limit')
  {
    if limit' == limit != LOWEST && limit' != sizes'[order[k]] {
      var n :| 0 <= n < k && n < |order| && order[n] in sizes && sizes[order[n]] == limit;
      assert order[n] != order[k];
    }
  }

  /** Streams, frontiers, queues and results agree. */
  ghost predicate Consistent(st: Incoming, order: seq<nat>, pos: map<nat, nat>, sizes: map<nat, Ratio>, q: seq<Item>,
                             u: seq<Item>, paths: map<nat, Ratio>, taken: set<nat>, firsts: seq<Ratio>) {
    && StreamsOk(st) && Positions(st, pos, sizes) && Covered(st, pos, paths.Keys + taken) && InOrder(order, st)
    && Nonincreasing(firsts) && QueueBelow(q, taken, firsts) && UnknownBelow(st, paths.Keys + taken, firsts)
    && QueuesOk(q, u, paths)
  }

  /** A path arrives in the stream of size `s`. */
  lemma {:induction false} Arrived(st: Incoming, order: seq<nat>, pos: map<nat, nat>, sizes: map<nat, Ratio>,
                                   q: seq<Item>, u: seq<Item>, paths: map<nat, Ratio>, taken: set<nat>,
                                   firsts: seq<Ratio>, s: nat, p: Path, q': seq<Item>, u': seq<Item>,
                                   paths': map<nat, Ratio>)
    requires Consistent(st, order, pos, sizes, q, u, paths, taken, firsts)
    requires s in st && pos[s] < |st[s]| && p == st[s][pos[s]]
    requires Store(multiset(q'), multiset(u'), paths') == Stored(Store(multiset(q), multiset(u), paths), p)
    requires QueuesOk(q', u', paths') && QueueBelow(q', taken, firsts)
    ensures Consistent(st, order, pos[s := pos[s] + 1], sizes[s := Ratio(p.cycles, s)], q', u', paths', taken, firsts)
    ensures AdvancedBy(pos, s, 1, pos[s := pos[s] + 1]) && SameBut(sizes, s, sizes[s := Ratio(p.cycles, s)])
  {
    KeysGrow(paths, p.id, RatioOf(p));
    assert paths'.Keys + taken == (paths.Keys + taken) + {p.id};
    ReadOne(st, pos, sizes, paths.Keys + taken, s, paths'.Keys + taken);
    KnowMore(st, paths.Keys + taken, paths'.Keys + taken, firsts);
  }

  /** What holds when the chunks of the first `k` sizes have been read. */
  ghost predicate Receiving(order: seq<nat>, k: nat, pos0: map<nat, nat>, pos: map<nat, nat>, chunks: Incoming,
                            sizes: map<nat, Ratio>, limit: Ratio, store: Store, now: Store) {
    && k <= |order| && Fits(limit) && LimitsUpTo(order, k, sizes, limit) && Attained(order, k, sizes, limit)
    && ReadUpTo(order, k, pos0, pos, chunks) && now == StoredSizes(store, order, k, chunks)
  }

  lemma {:induction false} ReceivingStart(st: Incoming, order: seq<nat>, pos: map<nat, nat>, chunks: Incoming,
                                          sizes: map<nat, Ratio>, store: Store)
    requires InOrder(order, st) && st.Keys == pos.Keys && forall s :: s in st ==> s in chunks
    ensures Receiving(order, 0, pos, pos, chunks, sizes, LOWEST, store, store)
  {
    LowestLeast();
  }

  /** Each stream has come as far as its chunk. */
  ghost predicate CameBy(st: Incoming, pos0: map<nat, nat>, pos: map<nat, nat>, chunks: Incoming) {
    forall s :: s in st ==> s in pos0 && s in pos && s in chunks && pos[s] == pos0[s] + |chunks[s]|
  }

  lemma {:induction false} ReceivingEnd(st: Incoming, order: seq<nat>, pos0: map<nat, nat>, pos: map<nat, nat>,
                                        chunks: Incoming, sizes: map<nat, Ratio>, limit: Ratio, store: Store,
                                        now: Store)
    requires Receiving(order, |order|, pos0, pos, chunks, sizes, limit, store, now) && InOrder(order, st)
    requires Positions(st, pos, sizes)
    ensures CameBy(st, pos0, pos, chunks) && Limits(sizes, limit)
  {
    LimitsEnd(order, sizes, limit);
    forall s | s in st ensures s in pos0 && s in pos && s in chunks && pos[s] == pos0[s] + |chunks[s]| {
      var n :| 0 <= n < |order| && order[n] == s;
    }
  }

  lemma {:induction false} ReceivingStep(st: Incoming, order: seq<nat>, k: nat, pos0: map<nat, nat>,
                                         pos: map<nat, nat>, chunks: Incoming, sizes: map<nat, Ratio>, limit: Ratio,
                                         store: Store, now: Store, pos': map<nat, nat>, sizes': map<nat, Ratio>,
                                         limit': Ratio, now': Store)
    requires Receiving(order, k, pos0, pos, chunks, sizes, limit, store, now) && k < |order| && InOrder(order, st)
    requires order[k] in chunks && AdvancedBy(pos, order[k], |chunks[order[k]]|, pos')
    requires SameBut(sizes, order[k], sizes') && Leq(sizes'[order[k]], limit') && Leq(limit, limit')
    requires (limit' == limit || limit' == sizes'[order[k]]) && Fits(limit')
    requires now' == StoredAll(now, chunks[order[k]])
    ensures Receiving(order, k + 1, pos0, pos', chunks, sizes', limit', store, now')
  {
    LimitsStep(order, k, sizes, limit, sizes', limit');
    AttainedStep(order, k, sizes, limit, sizes', limit');
    ReadStep(order, st, k, pos0, pos, pos', chunks);
  }

  lemma {:induction false} NextPath(st: Incoming, pos0: map<nat, nat>, pos: map<nat, nat>, s: nat, n: nat,
                                    chunk: seq<Path>)
    requires s in st && AdvancedBy(pos0, s, n, pos) && IsNext(st[s], pos0[s], chunk) && n < |chunk|
    ensures pos[s] < |st[s]| && chunk[n] == st[s][pos[s]]
  {
  }

  /** The last result, if there is one: only what was given away before may be queued above it. */
  ghost predicate Recent(st: Incoming, q: seq<Item>, known: set<nat>, taken: set<nat>, recent: seq<Ratio>) {
    |recent| <= 1 && QueueBelow(q, taken, recent) && UnknownBelow(st, known, recent)
  }

  /** What was given away is queued again, above the last result. */
  ghost predicate RanksAgain(q: seq<Item>, taken: set<nat>, recent: seq<Ratio>) {
    exists i :: 0 <= i < |q| && q[i].path in taken && !Below(q[i].key, recent)
  }

  ghost predicate Agreed(st: Incoming, order: seq<nat>, pos: map<nat, nat>, sizes: map<nat, Ratio>, q: seq<Item>,
                         u: seq<Item>, paths: map<nat, Ratio>, taken: set<nat>, firsts: seq<Ratio>,
                         recent: seq<Ratio>) {
    && Consistent(st, order, pos, sizes, q, u, paths, taken, firsts)
    && Recent(st, q, paths.Keys + taken, taken, recent)
  }

  lemma {:induction false} RecentArrived(st: Incoming, q: seq<Item>, known: set<nat>, taken: set<nat>,
                                         recent: seq<Ratio>, q': seq<Item>, known': set<nat>)
    requires Recent(st, q, known, taken, recent) && QueueBelow(q', taken, recent) && known <= known'
    ensures Recent(st, q', known', taken, recent)
  {
    KnowMore(st, known, known', recent);
  }

  /** The first in the queue rises above the last result exactly if something ranks there again. */
  lemma {:induction false} FirstRises(q: seq<Item>, taken: set<nat>, recent: seq<Ratio>)
    requires q != [] && Sorted(q) && QueueBelow(q, taken, recent)
    ensures !Below(q[0].key, recent) <==> RanksAgain(q, taken, recent)
  {
    if RanksAgain(q, taken, recent) {
      var i :| 0 <= i < |q| && q[i].path in taken && !Below(q[i].key, recent);
      if Below(q[0].key, recent) && i > 0 {
        LeqTransitive(q[i].key, q[0].key, recent[|recent| - 1]);
      }
    }
  }

  /** When it is given away, nothing else ranks above it. */
  lemma {:induction false} RecentTaken(st: Incoming, q: seq<Item>, known: set<nat>, taken: set<nat>)
    requires q != [] && Dominates(st, q, known, q[0].key)
    ensures Recent(st, q[1..], known, taken + {q[0].path}, [q[0].key])
    ensures !RanksAgain(q[1..], taken + {q[0].path}, [q[0].key])
  {
  }

  /** It may be pushed. */
  lemma {:induction false} Welcome(st: Incoming, order: seq<nat>, pos: map<nat, nat>, sizes: map<nat, Ratio>,
                                   q: seq<Item>, u: seq<Item>, paths: map<nat, Ratio>, taken: set<nat>,
                                   firsts: seq<Ratio>, recent: seq<Ratio>, s: nat, p: Path)
    requires Agreed(st, order, pos, sizes, q, u, paths, taken, firsts, recent)
    requires s in st && pos[s] < |st[s]| && p == st[s][pos[s]]
    ensures QueuesOk(q, u, paths) && QueueBelow(q, taken, firsts) && QueueBelow(q, taken, recent) && FitsPath(p)
    ensures p.id in paths || p.id in taken || (Below(RatioOf(p), firsts) && Below(RatioOf(p), recent))
  {
    assert Falling(st[s]);
    assert p.id in paths.Keys + taken || Below(RatioOf(st[s][pos[s]]), firsts);
    assert p.id in paths.Keys + taken || Below(RatioOf(st[s][pos[s]]), recent);
  }

  /** A path arrived in the stream of size `s` and was pushed. */
  lemma {:induction false} Pushed(st: Incoming, order: seq<nat>, pos: map<nat, nat>, sizes: map<nat, Ratio>,
                                  q: seq<Item>, u: seq<Item>, paths: map<nat, Ratio>, taken: set<nat>,
                                  firsts: seq<Ratio>, recent: seq<Ratio>, s: nat, p: Path, q': seq<Item>,
                                  u': seq<Item>, paths': map<nat, Ratio>)
    requires Agreed(st, order, pos, sizes, q, u, paths, taken, firsts, recent)
    requires s in st && pos[s] < |st[s]| && p == st[s][pos[s]]
    requires Store(multiset(q'), multiset(u'), paths') == Stored(Store(multiset(q), multiset(u), paths), p)
    requires QueuesOk(q', u', paths') && QueueBelow(q', taken, firsts) && QueueBelow(q', taken, recent)
    ensures Agreed(st, order, pos[s := pos[s] + 1], sizes[s := Ratio(p.cycles, s)], q', u', paths', taken, firsts,
                   recent)
    ensures AdvancedBy(pos, s, 1, pos[s := pos[s] + 1]) && SameBut(sizes, s, sizes[s := Ratio(p.cycles, s)])
  {
    Arrived(st, order, pos, sizes, q, u, paths, taken, firsts, s, p, q', u', paths');
    KeysGrow(paths, p.id, RatioOf(p));
    RecentArrived(st, q, paths.Keys + taken, taken, recent, q', paths'.Keys + taken);
  }

  // How much is asked for.

  /** The paths in the queue that are worth `l`; `count` says for how many each stands. */
  ghost function Ranked(q: seq<Item>, l: Ratio, count: nat -> nat): nat {
    if |q| == 0 then 0
    else Ranked(q[..|q| - 1], l, count) + if Leq(l, q[|q| - 1].key) then count(q[|q| - 1].path) else 0
  }

  /** Subtraction of sizes stops at zero. */
  function Minus(a: nat, b: nat): nat { if a < b then 0 else a - b }

  /** `v` asks each stream for what is missing to `k` paths worth what it has come down to. */
  ghost predicate Wants(q: seq<Item>, sizes: map<nat, Ratio>, k: nat, count: nat -> nat, v: map<nat, nat>) {
    && v.Keys <= sizes.Keys
    && forall s {:trigger Wanted(q, sizes, k, count, v, s)} :: s in sizes ==> Wanted(q, sizes, k, count, v, s)
  }

  ghost predicate Wanted(q: seq<Item>, sizes: map<nat, Ratio>, k: nat, count: nat -> nat, v: map<nat, nat>, s: nat)
    requires s in sizes
  {
    var n := Ranked(q, sizes[s], count);
    if n < k then s in v && v[s] == k - n else s !in v
  }

  ghost predicate WantsUpTo(order: seq<nat>, n: nat, q: seq<Item>, sizes: map<nat, Ratio>, k: nat, count: nat -> nat,
                            v: map<nat, nat>) {
    && n <= |order| && (forall s :: s in v ==> s in order[..n])
    && forall m :: 0 <= m < n ==> order[m] in sizes && Wanted(q, sizes, k, count, v, order[m])
  }

  lemma {:induction false} WantsStep(order: seq<nat>, n: nat, q: seq<Item>, sizes: map<nat, Ratio>, k: nat,
                                     count: nat -> nat, v: map<nat, nat>, sk: nat)
    requires WantsUpTo(order, n, q, sizes, k, count, v) && n < |order| && order[n] in sizes
    requires forall i, j :: 0 <= i < j < |order| ==> order[i] != order[j]
    requires sk == Minus(k, Ranked(q, sizes[order[n]], count))
    ensures WantsUpTo(order, n + 1, q, sizes, k, count, if sk > 0 then v[order[n] := sk] else v)
  {
    var v' := if sk > 0 then v[order[n] := sk] else v;
    assert order[n] !in order[..n];
    forall m | 0 <= m < n + 1 ensures order[m] in sizes && Wanted(q, sizes, k, count, v', order[m]) {
      assert m < n ==> Wanted(q, sizes, k, count, v, order[m]);
    }
  }

  lemma {:induction false} WantsEnd(st: Incoming, order: seq<nat>, q: seq<Item>, sizes: map<nat, Ratio>, k: nat,
                                    count: nat -> nat, v: map<nat, nat>)
    requires WantsUpTo(order, |order|, q, sizes, k, count, v) && InOrder(order, st) && st.Keys == sizes.Keys
    ensures Wants(q, sizes, k, count, v)
  {
    forall s | s in sizes ensures Wanted(q, sizes, k, count, v, s) {
      var m :| 0 <= m < |order| && order[m] == s;
    }
  }

  lemma {:induction false} RankedNext(q: seq<Item>, l: Ratio, count: nat -> nat, i: nat)
    requires i < |q|
    ensures Ranked(q[..i + 1], l, count) == Ranked(q[..i], l, count) + if Leq(l, q[i].key) then count(q[i].path) else 0
  {
    assert q[..i + 1][..i] == q[..i];
  }

  lemma {:induction false} RankedGrows(q: seq<Item>, l: Ratio, count: nat -> nat, i: nat)
    requires i <= |q|
    ensures Ranked(q[..i], l, count) <= Ranked(q, l, count)
    ensures (forall j :: i <= j < |q| ==> !Leq(l, q[j].key)) ==> Ranked(q[..i], l, count) == Ranked(q, l, count)
    decreases |q|
  {
    if i < |q| {
      RankedGrows(q[..|q| - 1], l, count, i);
      assert q[..|q| - 1][..i] == q[..i];
    } else {
      assert q[..i] == q;
    }
  }

  /** Behind one that is worth less there are only such. */
  lemma {:induction false} AllLess(q: seq<Item>, l: Ratio, i: nat)
    requires Sorted(q) && i < |q| && !Leq(l, q[i].key)
    ensures forall j :: i <= j < |q| ==> !Leq(l, q[j].key)
  {
    forall j | i <= j < |q| ensures !Leq(l, q[j].key) {
      if Leq(l, q[j].key) && i < j {
        LeqTransitive(l, q[j].key, q[i].key);
      }
    }
  }

  class ThresholdQueue {
    var q: seq<Item>
    var undecided: seq<Item>
    var paths: map<nat, Ratio>
    var sizes: map<nat, Ratio>
    var limit: Ratio
    const order: seq<nat>             // the sizes in the order of the map
    ghost const streams: Incoming     // all that will ever come
    ghost var pos: map<nat, nat>      // how much of it has come
    ghost var taken: set<nat>         // the paths given away
    ghost var firsts: seq<Ratio>      // their ratios, when given away for the first time
    ghost var recent: seq<Ratio>      // the ratio given away last

    ghost function Contents(): Store reads this { Store(multiset(q), multiset(undecided), paths) }

    ghost predicate Ready() reads this {
      Agreed(streams, order, pos, sizes, q, undecided, paths, taken, firsts, recent)
    }

    ghost predicate Valid() reads this { Ready() && Limits(sizes, limit) && Fits(limit) }

    constructor (order: seq<nat>, ghost streams: Incoming)
      requires StreamsOk(streams) && InOrder(order, streams)
      ensures Valid() && q == undecided == [] && paths == map[] && taken == {} && firsts == recent == []
      ensures pos == map s | s in order :: 0
      ensures this.streams == streams && this.order == order
    {
      this.order, this.streams := order, streams;
      q, undecided, paths := [], [], map[];
      sizes := map s | s in order :: HIGHEST;
      limit := HIGHEST;
      pos := map s | s in order :: 0;
      taken, firsts, recent := {}, [], [];
      new;
      forall s: nat | s in streams ensures Position(streams, pos, sizes, s) {
      }
    }

    /** A path that is queued already is not queued again. */
    method Push(p: Path)
      requires QueuesOk(q, undecided, paths) && FitsPath(p)
      requires QueueBelow(q, taken, firsts) && QueueBelow(q, taken, recent)
      requires p.id in paths || p.id in taken || (Below(RatioOf(p), firsts) && Below(RatioOf(p), recent))
      modifies this`q, this`undecided, this`paths
      ensures QueuesOk(q, undecided, paths) && QueueBelow(q, taken, firsts) && QueueBelow(q, taken, recent)
      ensures Contents() == Stored(old(Contents()), p)
    {
      if p.id in paths {
        return;
      }
      var x := Item(RatioOf(p), p.id, p.decided);
      var r, at := Emplace(q, x);
      InsertedContents(q, at, x);
      PushDecided(q, undecided, paths, at, x);
      PushBelow(q, at, x, taken, firsts);
      PushBelow(q, at, x, taken, recent);
      if !p.decided {
        var u, n := Emplace(undecided, x);
        PushUndecided(q, r, undecided, paths, n, x);
        InsertedContents(undecided, n, x);
        undecided := u;
      }
      q := r;
      paths := paths[p.id := x.key];
    }

    /** The next part of each stream arrives, size by size, and the limit is computed anew: the largest ratio that
    a stream has come down to. */
    method Receive(chunks: Incoming)
      requires Valid()
      requires forall s :: s in streams ==> s in chunks && IsNext(streams[s], pos[s], chunks[s])
      modifies this`q, this`undecided, this`paths, this`sizes, this`limit, this`pos
      ensures Valid()
      ensures CameBy(streams, old(pos), pos, chunks)
      ensures Contents() == StoredSizes(old(Contents()), order, |order|, chunks)
      ensures Attained(order, |order|, sizes, limit)
    {
      limit := LOWEST;
      ghost var pos0, store := pos, Contents();
      ReceivingStart(streams, order, pos, chunks, sizes, store);
      for k := 0 to |order|
        invariant Agreed(streams, order, pos, sizes, q, undecided, paths, taken, firsts, recent)
        invariant Receiving(order, k, pos0, pos, chunks, sizes, limit, store, Contents())
      {
        ReceiveNth(k, chunks, pos0, store);
      }
      ReceivingEnd(streams, order, pos0, pos, chunks, sizes, limit, store, Contents());
    }

    method ReceiveNth(k: nat, chunks: Incoming, ghost pos0: map<nat, nat>, ghost store: Store)
      requires k < |order| && Agreed(streams, order, pos, sizes, q, undecided, paths, taken, firsts, recent)
      requires Receiving(order, k, pos0, pos, chunks, sizes, limit, store, Contents())
      requires forall s :: s in streams ==> s in chunks && s in pos0 && IsNext(streams[s], pos0[s], chunks[s])
      modifies this`q, this`undecided, this`paths, this`sizes, this`limit, this`pos
      ensures Agreed(streams, order, pos, sizes, q, undecided, paths, taken, firsts, recent)
      ensures Receiving(order, k + 1, pos0, pos, chunks, sizes, limit, store, Contents())
    {
      ghost var sizes0, limit0, pos1, now := sizes, limit, pos, Contents();
      assert order[k] in streams && pos0[order[k]] == pos[order[k]];
      ReceiveSize(order[k], chunks[order[k]]);
      ReceivingStep(streams, order, k, pos0, pos1, chunks, sizes0, limit0, store, now, pos, sizes, limit, Contents());
    }

    method ReceiveSize(s: nat, chunk: seq<Path>)
      requires Ready() && Fits(limit)
      requires s in streams && IsNext(streams[s], pos[s], chunk)
      modifies this`q, this`undecided, this`paths, this`sizes, this`pos, this`limit
      ensures Ready() && Fits(limit)
      ensures AdvancedBy(old(pos), s, |chunk|, pos) && Contents() == StoredAll(old(Contents()), chunk)
      ensures SameBut(old(sizes), s, sizes) && Leq(sizes[s], limit) && Leq(old(limit), limit)
      ensures limit == old(limit) || limit == sizes[s]
    {
      ReceiveStream(s, chunk);
      FrontierFits(streams, pos, sizes, s);
      var less := Compare(limit, sizes[s]);
      if less {
        limit := sizes[s];
      }
    }

    /** The next part of the stream of size `s` arrives. */
    method ReceiveStream(s: nat, chunk: seq<Path>)
      requires Ready()
      requires s in streams && IsNext(streams[s], pos[s], chunk)
      modifies this`q, this`undecided, this`paths, this`sizes, this`pos
      ensures Ready()
      ensures AdvancedBy(old(pos), s, |chunk|, pos) && Contents() == StoredAll(old(Contents()), chunk)
      ensures SameBut(old(sizes), s, sizes)
    {
      for n := 0 to |chunk|
        invariant Ready()
        invariant AdvancedBy(old(pos), s, n, pos) && Contents() == StoredAll(old(Contents()), chunk[..n])
        invariant SameBut(old(sizes), s, sizes)
      {
        NextPath(streams, old(pos), pos, s, n, chunk);
        ghost var pos1, sizes1 := pos, sizes;
        ReceivePath(s, chunk[n]);
        StoredNext(old(Contents()), chunk, n);
        Onward(old(pos), pos1, pos, s, n, old(sizes), sizes1, sizes);
      }
      assert chunk[..|chunk|] == chunk;
    }

    method ReceivePath(s: nat, p: Path)
      requires Ready()
      requires s in streams && pos[s] < |streams[s]| && p == streams[s][pos[s]]
      modifies this`q, this`undecided, this`paths, this`sizes, this`pos
      ensures Ready() && Contents() == Stored(old(Contents()), p)
      ensures AdvancedBy(old(pos), s, 1, pos) && SameBut(old(sizes), s, sizes)
    {
      ghost var q0, u0, paths0, sizes0, pos0 := q, undecided, paths, sizes, pos;
      Welcome(streams, order, pos, sizes, q, undecided, paths, taken, firsts, recent, s, p);
      Push(p);
      sizes := sizes[s := Ratio(p.cycles, s)];
      pos := pos[s := pos[s] + 1];
      Pushed(streams, order, pos0, sizes0, q0, u0, paths0, taken, firsts, recent, s, p, q, undecided, paths);
    }

    /** `take_lowest_bitrate`: only a decided path, and only if it is worth the limit. */
    method TakeLowestBitrate() returns (r: Option<Item>)
      requires Valid()
      modifies this`q, this`paths, this`taken, this`firsts, this`recent
      ensures Valid()
      ensures r.None? ==> unchanged(this)
      ensures r.Some? ==> recent == [r.value.key] && !RanksAgain(q, taken, recent)
      ensures r.Some? ==> (!Below(r.value.key, old(recent)) <==> old(RanksAgain(q, taken, recent)))
      ensures r.None? <==> old(q) == [] || !Leq(limit, old(q)[0].key) || !old(q)[0].decided
      ensures r.Some? ==> r.value == old(q)[0] && r.value.decided && taken == old(taken) + {r.value.path}
      ensures r.Some? ==> Dominates(streams, old(q), old(paths.Keys) + old(taken), r.value.key)
      ensures r.Some? ==> q == old(q)[1..] && paths == old(paths) - {r.value.path}
      ensures r.Some? ==> firsts == old(firsts) + if r.value.path in old(taken) then [] else [r.value.key]
    {
      if q == [] {
        return None;
      }
      var less := Compare(q[0].key, limit);
      if less || !q[0].decided {
        return None;
      }
      var x := q[0];
      r := Some(x);
      FrontDominates(streams, pos, sizes, limit, paths.Keys + taken, q);
      FirstRises(q, taken, recent);
      RecentTaken(streams, q, paths.Keys + taken, taken);
      TakeQueues(q, undecided, paths);
      assert (paths - {x.path}).Keys + (taken + {x.path}) == paths.Keys + taken;
      if x.path !in taken {
        TakeGiven(streams, q, paths.Keys + taken, taken, firsts);
        firsts := firsts + [x.key];
      } else {
        TakeAgain(q, taken, firsts);
      }
      taken, recent := taken + {x.path}, [x.key];
      paths := paths - {x.path};
      q := q[1..];
    }

    /** `sizes_to`: the queue is read from its front. */
    method SizesTo(k: nat, count: nat -> nat) returns (v: map<nat, nat>)
      requires Valid()
      ensures Wants(q, sizes, k, count, v)
    {
      v := map[];
      for n := 0 to |order|
        invariant WantsUpTo(order, n, q, sizes, k, count, v)
      {
        var s := order[n];
        FrontierFits(streams, pos, sizes, s);
        var sk := Lacking(sizes[s], k, count);
        WantsStep(order, n, q, sizes, k, count, v, sk);
        if sk > 0 {
          v := v[s := sk];
        }
      }
      WantsEnd(streams, order, q, sizes, k, count, v);
    }

    method Lacking(l: Ratio, k: nat, count: nat -> nat) returns (sk: nat)
      requires Sorted(q) && Fits(l)
      ensures sk == Minus(k, Ranked(q, l, count))
    {
      var i := 0;
      sk := k;
      while sk > 0 && i < |q|
        invariant i <= |q| && sk == Minus(k, Ranked(q[..i], l, count))
      {
        var less := Compare(q[i].key, l);
        if less {
          AllLess(q, l, i);
          break;
        }
        RankedNext(q, l, count, i);
        sk := Minus(sk, count(q[i].path));
        i := i + 1;
      }
      RankedGrows(q, l, count, i);
    }

    /** `take_undecided`: the path stays queued until the answer is known. */
    method TakeUndecided() returns (r: Option<Item>)
      requires Valid()
      modifies this`undecided
      ensures Valid()
      ensures r.None? ==> undecided == old(undecided)
      ensures r.None? <==> old(undecided) == [] || !Leq(limit, old(undecided)[0].key)
      ensures r.Some? ==> old(undecided) == [r.value] + undecided && r.value in q && Leq(limit, r.value.key)
      ensures r.Some? ==> Awaited(q, undecided, paths, r.value.path)
    {
      if undecided == [] {
        return None;
      }
      var less := Compare(undecided[0].key, limit);
      if less {
        return None;
      }
      r := Some(undecided[0]);
      undecided := undecided[1..];
    }

    /** `adjust_size`: the check of `p` is done and may have found that it needs larger packets. */
    method AdjustSize(p: nat, n: Ratio)
      requires Valid() && Awaited(q, undecided, paths, p) && Fits(n)
      requires n.cycles == paths[p].cycles && 0 < paths[p].size <= n.size
      modifies this`q, this`paths
      ensures Valid()
      ensures paths == old(paths)[p := n]
      ensures multiset(q) == old(multiset(q)) - multiset{Item(old(paths)[p], p, false)} + multiset{Item(n, p, true)}
    {
      var f := FindItem(q, Item(paths[p], p, false));
      AdjustBelow(q, f, n, taken, firsts);
      AdjustBelow(q, f, n, taken, recent);
      if paths[p].size == n.size {
        AdjustMark(q, undecided, paths, f);
        q := q[f := Item(n, p, true)];
        return;
      }
      AdjustRemove(q, undecided, paths, f);
      var r, at := Emplace(Removed(q, f), Item(n, p, true));
      AdjustMoved(q, undecided, paths, f, n, r, at, taken, firsts);
      PushBelow(Removed(q, f), at, Item(n, p, true), taken, recent);
      q := r;
      paths := paths[p := n];
    }
  }
}
