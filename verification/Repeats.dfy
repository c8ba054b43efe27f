/** A path that is in the streams of two sizes can be given out twice by `tpathq`, the second time with a higher
ratio than what came between. */
module Repeats {
  import opened Streams
  import opened Ratios
  import opened Threshold
  import opened Wrappers

  // The rounds of `enumerate_by_bitrate`.

  /** What a stream of which `n` paths have come gives when `m` are asked for. */
  function Part(ps: seq<Path>, n: nat, m: nat): seq<Path>
    requires n <= |ps|
  {
    if n + m <= |ps| then ps[n..n + m] else ps[n..]
  }

  ghost predicate Fitting(streams: Incoming, pos: map<nat, nat>) {
    pos.Keys == streams.Keys && forall s :: s in streams ==> pos[s] <= |streams[s]|
  }

  function Parts(streams: Incoming, pos: map<nat, nat>, v: map<nat, nat>): Incoming
    requires Fitting(streams, pos)
  {
    map s | s in streams :: Part(streams[s], pos[s], if s in v then v[s] else 0)
  }

  /** How much has come after these parts. */
  function Moved(streams: Incoming, pos: map<nat, nat>, chunks: Incoming): map<nat, nat>
    requires streams.Keys <= pos.Keys && streams.Keys <= chunks.Keys
  {
    map s | s in streams :: pos[s] + |chunks[s]|
  }

  /** What one round brings into a queue with these contents: of each stream as much as is missing. */
  ghost predicate Brings(t: ThresholdQueue, streams: Incoming, pos: map<nat, nat>, st: Store, v: map<nat, nat>)
    reads t
  {
    && t.Valid() && t.streams == streams && Fitting(streams, pos)
    && t.pos == Moved(streams, pos, Parts(streams, pos, v))
    && t.Contents() == StoredSizes(st, t.order, |t.order|, Parts(streams, pos, v))
    && Attained(t.order, |t.order|, t.sizes, t.limit)
  }

  method Pull(t: ThresholdQueue, streams: Incoming, pos: map<nat, nat>, k: nat, count: nat -> nat)
    returns (v: map<nat, nat>, pos': map<nat, nat>)
    requires t.Valid() && t.streams == streams && t.pos == pos
    modifies t`q, t`undecided, t`paths, t`sizes, t`limit, t`pos
    ensures Wants(old(t.q), old(t.sizes), k, count, v)
    ensures Brings(t, streams, pos, old(t.Contents()), v) && t.pos == pos'
  {
    Reached(streams, t.pos, t.sizes);
    v := t.SizesTo(k, count);
    var chunks := Parts(streams, pos, v);
    t.Receive(chunks);
    pos' := Moved(streams, pos, chunks);
    Reached(streams, t.pos, t.sizes);
    CameTo(streams, pos, t.pos, chunks);
  }

  lemma {:induction false} CameTo(streams: Incoming, pos: map<nat, nat>, pos': map<nat, nat>, chunks: Incoming)
    requires CameBy(streams, pos, pos', chunks) && pos'.Keys == streams.Keys
    ensures streams.Keys <= pos.Keys && streams.Keys <= chunks.Keys && pos' == Moved(streams, pos, chunks)
  {
  }

  lemma {:induction false} Reached(streams: Incoming, pos: map<nat, nat>, sizes: map<nat, Ratio>)
    requires Positions(streams, pos, sizes)
    ensures Fitting(streams, pos)
  {
    forall s | s in streams ensures pos[s] <= |streams[s]| {
      assert Position(streams, pos, sizes, s);
    }
  }

  ghost predicate Stops(q: seq<Item>, limit: Ratio) { q == [] || !Leq(limit, q[0].key) || !q[0].decided }

  /** The next path that can be given away. */
  method TakeNext(t: ThresholdQueue) returns (r: Option<Item>)
    requires t.Valid()
    modifies t`q, t`paths, t`taken, t`firsts, t`recent
    ensures t.Valid()
    ensures r.None? ==> t.q == old(t.q) && Stops(t.q, t.limit)
    ensures r.Some? ==> old(t.q) == [r.value] + t.q && Leq(t.limit, r.value.key)
  {
    r := t.TakeLowestBitrate();
  }

  lemma {:induction false} OneOver(out: seq<Item>, x: Item, q: seq<Item>)
    ensures out + ([x] + q) == (out + [x]) + q
  {
  }

  /** And all of them. */
  method TakeAll(t: ThresholdQueue) returns (out: seq<Item>)
    requires t.Valid()
    modifies t`q, t`paths, t`taken, t`firsts, t`recent
    ensures t.Valid() && out + t.q == old(t.q) && Stops(t.q, t.limit)
    ensures forall i :: 0 <= i < |out| ==> Leq(t.limit, out[i].key)
  {
    out := [];
    var more := true;
    while more
      invariant t.Valid() && out + t.q == old(t.q)
      invariant forall i :: 0 <= i < |out| ==> Leq(t.limit, out[i].key)
      invariant !more ==> Stops(t.q, t.limit)
      decreases more, |t.q|
    {
      var r := TakeNext(t);
      if r.Some? {
        OneOver(out, r.value, t.q);
        out := out + [r.value];
      } else {
        more := false;
      }
    }
  }

  /** What goes is the part of the queue that is worth the limit. */
  lemma {:induction false} Goes(out: seq<Item>, rest: seq<Item>, q: seq<Item>, n: nat, limit: Ratio)
    requires out + rest == q && n <= |q| && Stops(rest, limit) && forall i :: 0 <= i < |out| ==> Leq(limit, out[i].key)
    requires forall i :: 0 <= i < n ==> q[i].decided && Leq(limit, q[i].key)
    requires n < |q| ==> !Leq(limit, q[n].key)
    ensures out == q[..n] && rest == q[n..]
  {
    Joined(out, rest, q);
  }

  lemma {:induction false} Joined(out: seq<Item>, rest: seq<Item>, q: seq<Item>)
    requires out + rest == q
    ensures forall i :: 0 <= i < |out| ==> out[i] == q[i]
    ensures rest != [] ==> rest[0] == q[|out|]
  {
  }

  ghost predicate Dropping(q: seq<Item>) {
    forall i, j :: 0 <= i < j < |q| ==> !Leq(q[i].key, q[j].key)
  }

  /** A queue of items that are worth differently has one order. */
  lemma {:induction false} OneOrder(q: seq<Item>, p: seq<Item>)
    requires Sorted(q) && multiset(q) == multiset(p) && Dropping(p)
    ensures q == p
    decreases |q|
  {
    assert |q| == |multiset(q)| == |p|;
    if |q| > 0 {
      SameFirst(q, p);
      WithoutFirst(q);
      WithoutFirst(p);
      OneOrder(q[1..], p[1..]);
      SameRest(q, p);
    }
  }

  lemma {:induction false} WithoutFirst(q: seq<Item>)
    requires |q| > 0
    ensures multiset(q[1..]) == multiset(q) - multiset{q[0]}
  {
    assert q == [q[0]] + q[1..];
  }

  lemma {:induction false} SameRest(q: seq<Item>, p: seq<Item>)
    requires |q| > 0 && |p| > 0 && q[0] == p[0] && q[1..] == p[1..]
    ensures q == p
  {
    assert q == [q[0]] + q[1..] && p == [p[0]] + p[1..];
  }

  lemma {:induction false} SameFirst(q: seq<Item>, p: seq<Item>)
    requires Sorted(q) && multiset(q) == multiset(p) && Dropping(p) && |q| > 0 && |p| > 0
    ensures q[0] == p[0]
  {
    assert q[0] in multiset(p) && p[0] in multiset(q);
    var i :| 0 <= i < |p| && p[i] == q[0];
    var j :| 0 <= j < |q| && q[j] == p[0];
    assert Leq(q[j].key, q[0].key);
  }

  ghost predicate Above(x: Item, y: Item) { !Leq(x.key, y.key) }

  lemma {:induction false} FourDropping(a: Item, b: Item, c: Item, d: Item)
    requires Above(a, b) && Above(b, c) && Above(c, d)
    ensures Dropping([a, b, c, d])
  {
  }

  /** Four items come in one order, and the first three of them go. */
  lemma {:induction false} ThreeGo(q: seq<Item>, a: Item, b: Item, c: Item, d: Item, out: seq<Item>, rest: seq<Item>,
                                   limit: Ratio)
    requires Sorted(q) && multiset(q) == multiset([a, b, c, d]) && Above(a, b) && Above(b, c) && Above(c, d)
    requires out + rest == q && Stops(rest, limit) && forall i :: 0 <= i < |out| ==> Leq(limit, out[i].key)
    requires a.decided && b.decided && c.decided && Leq(limit, c.key) && !Leq(limit, d.key)
    ensures out == [a, b, c] && rest == [d]
  {
    FourDropping(a, b, c, d);
    OneOrder(q, [a, b, c, d]);
    Goes(out, rest, q, 3, limit);
  }

  /** Or all of them. */
  lemma {:induction false} FourGo(q: seq<Item>, a: Item, b: Item, c: Item, d: Item, out: seq<Item>, rest: seq<Item>,
                                  limit: Ratio)
    requires Sorted(q) && multiset(q) == multiset([a, b, c, d]) && Above(a, b) && Above(b, c) && Above(c, d)
    requires out + rest == q && Stops(rest, limit) && forall i :: 0 <= i < |out| ==> Leq(limit, out[i].key)
    requires a.decided && b.decided && c.decided && d.decided && Leq(limit, d.key)
    ensures out == [a, b, c, d]
  {
    FourDropping(a, b, c, d);
    OneOrder(q, [a, b, c, d]);
    Goes(out, rest, q, 4, limit);
  }

  lemma {:induction false} OneLeft(q: seq<Item>, u: seq<Item>, paths: map<nat, Ratio>, x: Item)
    requires Indexed(q, paths) && Pending(u, q) && q == [x] && x.decided
    ensures Store(multiset(q), multiset(u), paths) == Store(multiset{x}, multiset{}, map[x.path := x.key])
  {
    forall id | id in paths ensures id == x.path {
      assert InQueue(q, id);
    }
  }

  // A run of them.

  const OFTEN := Path(0, 1200, 60, true)
  const X := Path(1, 240, 60, true)
  const Y := Path(2, 180, 60, true)
  const Z := Path(3, 120, 60, true)
  const L := Path(4, 6000, 600, true)
  const M := Path(5, 3600, 600, true)

  /** Two paths that need large packets, and four that do with small ones. */
  const STREAMS: Incoming := map[60 := SMALL, 600 := LARGE]
  const SMALL: seq<Path> := [OFTEN, X, Y, Z]
  const LARGE: seq<Path> := [L, M, OFTEN, X, Y, Z]

  const SIZES: seq<nat> := [60, 600]

  function At(n: nat, m: nat): map<nat, nat> { map[60 := n, 600 := m] }

  function ItemOf(p: Path): Item { Item(RatioOf(p), p.id, p.decided) }

  const NOTHING := Store(multiset{}, multiset{}, map[])

  function One(p: nat): nat { 1 }

  lemma {:induction false} AtHomeAt(p: Path, s: nat, j: nat)
    requires IsHome(STREAMS, p, s, j)
    ensures AtHome(STREAMS, p)
  {
  }

  lemma {:induction false} StreamsFine()
    ensures StreamsOk(STREAMS) && InOrder(SIZES, STREAMS)
  {
    AtHomeAt(OFTEN, 60, 0);
    AtHomeAt(X, 60, 1);
    AtHomeAt(Y, 60, 2);
    AtHomeAt(Z, 60, 3);
    AtHomeAt(L, 600, 0);
    AtHomeAt(M, 600, 1);
    assert Falling(STREAMS[60]) && Falling(STREAMS[600]);
  }

  /** What the ratios are worth. */
  lemma {:induction false} Worths()
    ensures Worth(RatioOf(OFTEN)) == Finite(20.0) && Worth(RatioOf(L)) == Finite(10.0)
    ensures Worth(RatioOf(M)) == Finite(6.0) && Worth(RatioOf(X)) == Finite(4.0)
    ensures Worth(RatioOf(Y)) == Finite(3.0) && Worth(RatioOf(Z)) == Finite(2.0) && Worth(LOWEST) == Finite(0.0)
    ensures Worth(Ratio(180, 600)) == Finite(0.3)
  {
  }

  lemma {:induction false} TwoStored(st: Store, ps: seq<Path>)
    requires |ps| == 2
    ensures StoredAll(st, ps) == Stored(Stored(st, ps[0]), ps[1])
  {
    assert ps[..1][..0] == [] && ps[..1][0] == ps[0];
    assert StoredAll(st, ps[..1]) == Stored(StoredAll(st, ps[..1][..0]), ps[..1][0]);
  }

  lemma {:induction false} ThreeStored(st: Store, ps: seq<Path>)
    requires |ps| == 3
    ensures StoredAll(st, ps) == Stored(Stored(Stored(st, ps[0]), ps[1]), ps[2])
  {
    TwoStored(st, ps[..2]);
  }

  lemma {:induction false} BothStored(st: Store, chunks: Incoming)
    requires chunks.Keys == {60, 600}
    ensures StoredSizes(st, SIZES, 2, chunks) == StoredAll(StoredAll(st, chunks[60]), chunks[600])
  {
    assert StoredSizes(st, SIZES, 1, chunks) == StoredAll(StoredSizes(st, SIZES, 0, chunks), chunks[60]);
  }

  lemma {:induction false} PartOf(ps: seq<Path>, a: seq<Path>, b: seq<Path>, c: seq<Path>)
    requires ps == a + b + c
    ensures Part(ps, |a|, |b|) == b
  {
  }

  lemma {:induction false} FirstParts(chunks: Incoming)
    requires Fitting(STREAMS, At(0, 0)) && chunks == Parts(STREAMS, At(0, 0), At(2, 2))
    ensures chunks.Keys == {60, 600} && chunks[60] == [OFTEN, X] && chunks[600] == [L, M]
  {
    PartOf(SMALL, [], [OFTEN, X], [Y, Z]);
    PartOf(LARGE, [], [L, M], [OFTEN, X, Y, Z]);
  }

  lemma {:induction false} SecondParts(chunks: Incoming)
    requires Fitting(STREAMS, At(2, 2)) && chunks == Parts(STREAMS, At(2, 2), At(2, 3))
    ensures chunks.Keys == {60, 600} && chunks[60] == [Y, Z] && chunks[600] == [OFTEN, X, Y]
  {
    PartOf(SMALL, [OFTEN, X], [Y, Z], []);
    PartOf(LARGE, [L, M], [OFTEN, X, Y], [Z]);
  }

  lemma {:induction false} MovedTo(n: nat, m: nat, chunks: Incoming)
    requires chunks.Keys == {60, 600}
    ensures Moved(STREAMS, At(n, m), chunks) == At(n + |chunks[60]|, m + |chunks[600]|)
  {
  }

  function OneStored(p: Path): Store { Store(multiset{ItemOf(p)}, multiset{}, map[p.id := RatioOf(p)]) }

  function Added(st: Store, p: Path): Store {
    Store(st.items + multiset{ItemOf(p)}, if p.decided then st.waiting else st.waiting + multiset{ItemOf(p)},
          st.paths[p.id := RatioOf(p)])
  }

  lemma {:induction false} TwoAdded(st: Store, ps: seq<Path>, a: Path, b: Path)
    requires ps == [a, b] && a.id !in st.paths && b.id !in st.paths && a.id != b.id
    ensures StoredAll(st, ps) == Added(Added(st, a), b)
  {
    TwoStored(st, ps);
  }

  /** Two new paths for each size. */
  lemma {:induction false} FirstStored(chunks: Incoming, o: Path, x: Path, l: Path, m: Path)
    requires chunks.Keys == {60, 600} && chunks[60] == [o, x] && chunks[600] == [l, m]
    requires o.id != x.id && l.id != m.id && o.id != l.id && o.id != m.id && x.id != l.id && x.id != m.id
    ensures StoredSizes(NOTHING, SIZES, 2, chunks).items
         == multiset([ItemOf(o), ItemOf(l), ItemOf(m), ItemOf(x)])
  {
    BothStored(NOTHING, chunks);
    TwoAdded(NOTHING, chunks[60], o, x);
    TwoAdded(Added(Added(NOTHING, o), x), chunks[600], l, m);
  }

  /** Two new paths, and three of which one is new and two are there already. */
  lemma {:induction false} SecondStored(chunks: Incoming, o: Path, x: Path, y: Path, z: Path)
    requires chunks.Keys == {60, 600} && chunks[60] == [y, z] && chunks[600] == [o, x, y]
    requires o.id != x.id && y.id != z.id && o.id != y.id && o.id != z.id && x.id != y.id && x.id != z.id
    ensures StoredSizes(OneStored(x), SIZES, 2, chunks).items
         == multiset([ItemOf(o), ItemOf(x), ItemOf(y), ItemOf(z)])
  {
    BothStored(OneStored(x), chunks);
    TwoAdded(OneStored(x), chunks[60], y, z);
    OneAdded(Added(Added(OneStored(x), y), z), chunks[600], o, x, y);
    FourItems(x, y, z, o);
  }

  lemma {:induction false} FourItems(x: Path, y: Path, z: Path, o: Path)
    ensures Added(Added(Added(OneStored(x), y), z), o).items == multiset([ItemOf(o), ItemOf(x), ItemOf(y), ItemOf(z)])
  {
    FourSum(ItemOf(x), ItemOf(y), ItemOf(z), ItemOf(o));
  }

  lemma {:induction false} FourSum(a: Item, b: Item, c: Item, d: Item)
    ensures multiset{a} + multiset{b} + multiset{c} + multiset{d} == multiset([d, a, b, c])
  {
  }

  lemma {:induction false} OneAdded(st: Store, ps: seq<Path>, a: Path, b: Path, c: Path)
    requires ps == [a, b, c] && a.id !in st.paths && b.id in st.paths && c.id in st.paths
    ensures StoredAll(st, ps) == Added(st, a)
  {
    ThreeStored(st, ps);
  }

  /** With an empty queue all is missing. */
  lemma {:induction false} FirstWants(q: seq<Item>, sizes: map<nat, Ratio>, v: map<nat, nat>)
    requires |q| == 0 && sizes.Keys == {60, 600} && Wants(q, sizes, 2, One, v)
    ensures v == At(2, 2)
  {
    assert Wanted(q, sizes, 2, One, v, 60) && Wanted(q, sizes, 2, One, v, 600);
  }

  /** The path that is left counts for the small size, but not for the large one. */
  lemma {:induction false} SecondWants(sizes: map<nat, Ratio>, v: map<nat, nat>)
    requires sizes.Keys == {60, 600} && sizes[60] == RatioOf(X) && sizes[600] == RatioOf(M)
    requires Wants([ItemOf(X)], sizes, 3, One, v)
    ensures v == At(2, 3)
  {
    Worths();
    var q := [ItemOf(X)];
    assert q[..0] == [];
    assert Ranked(q, RatioOf(X), One) == Ranked(q[..0], RatioOf(X), One) + 1;
    assert Ranked(q, RatioOf(M), One) == Ranked(q[..0], RatioOf(M), One);
    assert Wanted(q, sizes, 3, One, v, 60) && Wanted(q, sizes, 3, One, v, 600);
  }

  lemma {:induction false} Reads(pos: map<nat, nat>, sizes: map<nat, Ratio>, n: nat, m: nat)
    requires Positions(STREAMS, pos, sizes) && pos == At(n, m) && 0 < n <= 4 && 0 < m <= 6
    ensures sizes.Keys == {60, 600}
    ensures sizes[60] == Ratio(STREAMS[60][n - 1].cycles, 60) && sizes[600] == Ratio(STREAMS[600][m - 1].cycles, 600)
  {
    assert Position(STREAMS, pos, sizes, 60) && Position(STREAMS, pos, sizes, 600);
  }

  lemma {:induction false} FirstGoes(sizes: map<nat, Ratio>, limit: Ratio, q: seq<Item>, out: seq<Item>,
                                     rest: seq<Item>)
    requires Positions(STREAMS, At(2, 2), sizes) && Limits(sizes, limit) && Attained(SIZES, 2, sizes, limit)
    requires Sorted(q) && multiset(q) == multiset([ItemOf(OFTEN), ItemOf(L), ItemOf(M), ItemOf(X)])
    requires out + rest == q && Stops(rest, limit) && forall i :: 0 <= i < |out| ==> Leq(limit, out[i].key)
    ensures out == FIRST && rest == [ItemOf(X)]
  {
    Worths();
    Reads(At(2, 2), sizes, 2, 2);
    assert Leq(sizes[600], limit);
    ThreeGo(q, ItemOf(OFTEN), ItemOf(L), ItemOf(M), ItemOf(X), out, rest, limit);
  }

  lemma {:induction false} SecondGoes(sizes: map<nat, Ratio>, limit: Ratio, q: seq<Item>, out: seq<Item>,
                                      rest: seq<Item>)
    requires Positions(STREAMS, At(4, 5), sizes) && Attained(SIZES, 2, sizes, limit)
    requires Sorted(q) && multiset(q) == multiset([ItemOf(OFTEN), ItemOf(X), ItemOf(Y), ItemOf(Z)])
    requires out + rest == q && Stops(rest, limit) && forall i :: 0 <= i < |out| ==> Leq(limit, out[i].key)
    ensures out == SECOND
  {
    Worths();
    Reads(At(4, 5), sizes, 4, 5);
    FourGo(q, ItemOf(OFTEN), ItemOf(X), ItemOf(Y), ItemOf(Z), out, rest, limit);
  }

  const FIRST: seq<Item> := [ItemOf(OFTEN), ItemOf(L), ItemOf(M)]
  const SECOND: seq<Item> := [ItemOf(OFTEN), ItemOf(X), ItemOf(Y), ItemOf(Z)]

  ghost predicate Run(t: ThresholdQueue, pos: map<nat, nat>) reads t {
    t.Valid() && t.streams == STREAMS && t.order == SIZES && t.pos == pos
  }

  method FirstRound(t: ThresholdQueue) returns (pos: map<nat, nat>, out: seq<Item>)
    requires Run(t, At(0, 0)) && t.Contents() == NOTHING && |t.q| == 0
    modifies t
    ensures Run(t, At(2, 2)) && pos == At(2, 2) && t.Contents() == OneStored(X) && t.q == [ItemOf(X)]
    ensures out == FIRST
  {
    pos := FirstPull(t);
    ghost var q := t.q;
    out := TakeAll(t);
    FirstGoes(t.sizes, t.limit, q, out, t.q);
    OneLeft(t.q, t.undecided, t.paths, ItemOf(X));
  }

  lemma {:induction false} SizesAre(pos: map<nat, nat>, sizes: map<nat, Ratio>)
    requires Positions(STREAMS, pos, sizes)
    ensures sizes.Keys == {60, 600}
  {
  }

  method FirstPull(t: ThresholdQueue) returns (pos: map<nat, nat>)
    requires Run(t, At(0, 0)) && t.Contents() == NOTHING && |t.q| == 0
    modifies t
    ensures Run(t, At(2, 2)) && pos == At(2, 2) && Attained(SIZES, 2, t.sizes, t.limit)
    ensures multiset(t.q) == multiset([ItemOf(OFTEN), ItemOf(L), ItemOf(M), ItemOf(X)])
  {
    ghost var q, sizes := t.q, t.sizes;
    SizesAre(t.pos, sizes);
    var v;
    v, pos := Pull(t, STREAMS, At(0, 0), 2, One);
    FirstWants(q, sizes, v);
    FirstBrought(pos, t.Contents());
  }

  lemma {:induction false} FirstBrought(pos: map<nat, nat>, st: Store)
    requires Fitting(STREAMS, At(0, 0))
    requires var chunks := Parts(STREAMS, At(0, 0), At(2, 2));
      pos == Moved(STREAMS, At(0, 0), chunks) && st == StoredSizes(NOTHING, SIZES, 2, chunks)
    ensures pos == At(2, 2)
    ensures st.items == multiset([ItemOf(OFTEN), ItemOf(L), ItemOf(M), ItemOf(X)])
  {
    var chunks := Parts(STREAMS, At(0, 0), At(2, 2));
    FirstParts(chunks);
    MovedTo(0, 0, chunks);
    FirstPaths(chunks);
  }

  lemma {:induction false} FirstPaths(chunks: Incoming)
    requires chunks.Keys == {60, 600} && chunks[60] == [OFTEN, X] && chunks[600] == [L, M]
    ensures StoredSizes(NOTHING, SIZES, 2, chunks).items
         == multiset([ItemOf(OFTEN), ItemOf(L), ItemOf(M), ItemOf(X)])
  {
    FirstStored(chunks, OFTEN, X, L, M);
  }

  method SecondRound(t: ThresholdQueue, pos: map<nat, nat>) returns (out: seq<Item>)
    requires Run(t, pos) && pos == At(2, 2) && t.Contents() == OneStored(X) && t.q == [ItemOf(X)]
    modifies t
    ensures out == SECOND
  {
    SecondPull(t, pos);
    ghost var q := t.q;
    out := TakeAll(t);
    SecondGoes(t.sizes, t.limit, q, out, t.q);
  }

  method SecondPull(t: ThresholdQueue, pos: map<nat, nat>)
    requires Run(t, pos) && pos == At(2, 2) && t.Contents() == OneStored(X) && t.q == [ItemOf(X)]
    modifies t
    ensures Run(t, At(4, 5)) && Attained(SIZES, 2, t.sizes, t.limit)
    ensures multiset(t.q) == multiset([ItemOf(OFTEN), ItemOf(X), ItemOf(Y), ItemOf(Z)])
  {
    Reads(t.pos, t.sizes, 2, 2);
    ghost var sizes := t.sizes;
    var v, pos' := Pull(t, STREAMS, pos, 3, One);
    SecondBrought(sizes, v, pos', t.Contents());
  }

  lemma {:induction false} SecondBrought(sizes: map<nat, Ratio>, v: map<nat, nat>, pos: map<nat, nat>, st: Store)
    requires sizes.Keys == {60, 600} && sizes[60] == RatioOf(X) && sizes[600] == RatioOf(M)
    requires Wants([ItemOf(X)], sizes, 3, One, v) && Fitting(STREAMS, At(2, 2))
    requires var chunks := Parts(STREAMS, At(2, 2), v);
      pos == Moved(STREAMS, At(2, 2), chunks) && st == StoredSizes(OneStored(X), SIZES, 2, chunks)
    ensures pos == At(4, 5)
    ensures st.items == multiset([ItemOf(OFTEN), ItemOf(X), ItemOf(Y), ItemOf(Z)])
  {
    SecondWants(sizes, v);
    var chunks := Parts(STREAMS, At(2, 2), v);
    SecondParts(chunks);
    MovedTo(2, 2, chunks);
    SecondStored(chunks, OFTEN, X, Y, Z);
  }

  lemma {:induction false} Rises()
    ensures !Leq(RatioOf(OFTEN), RatioOf(M))
  {
    Worths();
  }

  /** Two rounds, asking for two paths and then for three, as with a parallelism of two: the first path comes again
  after two that are worth less. */
  method Again() returns (first: seq<Item>, second: seq<Item>)
    ensures first == FIRST && second == SECOND
    ensures first[0] == second[0] && !Leq(second[0].key, first[2].key)
  {
    StreamsFine();
    var t := new ThresholdQueue(SIZES, STREAMS);
    var pos;
    pos, first := FirstRound(t);
    second := SecondRound(t, pos);
    Rises();
  }
}
