/** `ipathq` and `vmax`: two rankings of the same paths, merged into one order.

Each ranking delivers a stream of all paths, sorted by its own value. A path is queued only when it
comes from the ranking in which its normalised value is larger. */
module Interleave {
  import opened Streams
  import opened Wrappers

  const NUM_WORKERS: real := 50.0

  datatype Kind = Possible | Impossible | NoPath

  /** A path, or `count` unsatisfiable paths that were merged into one. */
  datatype Path = Path(id: nat, kind: Kind, cycles: nat, dram: Value, count: nat)

  datatype Ranking = MaxCycles | DramCycles

  function Scale(v: Value): Value {
    if v.Finite? then Finite(NUM_WORKERS * v.r) else v
  }

  /** `normalize` of the two rankings. */
  function Normal(p: Path, r: Ranking): Value {
    if r.MaxCycles? then Finite(p.cycles as real) else Scale(p.dram)
  }

  predicate Below(a: Value, b: Value) { !AtMost(b, a) }

  function Higher(c: Value, d: Value): (r: Ranking)
    ensures AtMost(if r.MaxCycles? then d else c, if r.MaxCycles? then c else d)
  {
    if Below(c, d) then DramCycles else MaxCycles
  }

  /** `vmax::type`: the ranking in which the path counts most. */
  function Dominant(p: Path): Ranking { Higher(Normal(p, MaxCycles), Normal(p, DramCycles)) }

  function MaxOf(p: Path): Value { Normal(p, Dominant(p)) }

  lemma {:induction false} MaxOfLargest(p: Path, r: Ranking)
    ensures AtMost(Normal(p, r), MaxOf(p))
  {
  }

  // The queues of one ranking.

  /** `pathq::push` of one path: adjacent unsatisfiable paths become one, ranked like the later. */
  function Push(q: seq<Path>, p: Path, merging: bool): seq<Path> {
    if q == [] then [p]
    else
      var last := q[|q| - 1];
      if p.kind.Impossible? && last.kind.Impossible? && merging
        then q[..|q| - 1] + [p.(count := p.count + last.count)]
      else if p.kind.NoPath? && last.kind.NoPath? then q
      else q + [p]
  }

  /** The part of a chunk that belongs into the queue of `r`. */
  function Accepted(q: seq<Path>, chunk: seq<Path>, r: Ranking, merging: bool): seq<Path> {
    if chunk == [] then q
    else
      var before := Accepted(q, chunk[..|chunk| - 1], r, merging);
      var p := chunk[|chunk| - 1];
      if Dominant(p) == r then Push(before, p, merging) else before
  }

  /** Sorted by its ranking, and every path is here because this is its dominant one. */
  ghost predicate Falling(q: seq<Path>, r: Ranking) {
    && (forall i :: 0 <= i < |q| ==> Dominant(q[i]) == r)
    && Sorted(q, r)
  }

  ghost predicate Sorted(q: seq<Path>, r: Ranking) {
    forall i, j :: 0 <= i < j < |q| ==> AtMost(Normal(q[j], r), Normal(q[i], r))
  }

  ghost predicate AllAtLeast(q: seq<Path>, r: Ranking, v: Value) {
    forall i :: 0 <= i < |q| ==> AtMost(v, Normal(q[i], r))
  }

  lemma {:induction false} PushFalling(q: seq<Path>, p: Path, r: Ranking, merging: bool)
    requires Falling(q, r) && Dominant(p) == r && AllAtLeast(q, r, Normal(p, r))
    ensures Falling(Push(q, p, merging), r) && AllAtLeast(Push(q, p, merging), r, Normal(p, r))
  {
    var q' := Push(q, p, merging);
    assert forall c :: Normal(p.(count := c), r) == Normal(p, r) && Dominant(p.(count := c)) == Dominant(p);
    forall i | 0 <= i < |q'| ensures Dominant(q'[i]) == r && AtMost(Normal(p, r), Normal(q'[i], r)) {
      assert i < |q| - 1 ==> q'[i] == q[i];
    }
    forall i, j | 0 <= i < j < |q'| ensures AtMost(Normal(q'[j], r), Normal(q'[i], r)) {
      assert q'[i] == q[i];
    }
  }

  /** The queue stays sorted while a sorted chunk of nothing larger is pushed. */
  lemma {:induction false} AcceptedFalling(q: seq<Path>, chunk: seq<Path>, r: Ranking, merging: bool)
    requires Falling(q, r) && Sorted(chunk, r)
    requires forall i :: 0 <= i < |chunk| ==> AllAtLeast(q, r, Normal(chunk[i], r))
    ensures Falling(Accepted(q, chunk, r, merging), r)
    ensures chunk != [] ==> AllAtLeast(Accepted(q, chunk, r, merging), r, Normal(chunk[|chunk| - 1], r))
  {
    if chunk != [] {
      var init, p := chunk[..|chunk| - 1], chunk[|chunk| - 1];
      AcceptedFalling(q, init, r, merging);
      var before := Accepted(q, init, r, merging);
      assert AllAtLeast(before, r, Normal(p, r)) by {
        if init != [] {
          assert init[|init| - 1] == chunk[|chunk| - 2];
          assert AtMost(Normal(p, r), Normal(chunk[|chunk| - 2], r));
        }
      }
      if Dominant(p) == r {
        PushFalling(before, p, r, merging);
      }
    }
  }

  // What the queue of a ranking has to do with its stream.

  /** The paths of a stream that are its own: exactly one ranking claims a path. */
  function Own(s: seq<Path>, r: Ranking): seq<Path> {
    if s == [] then []
    else Own(s[..|s| - 1], r) + if Dominant(s[|s| - 1]) == r then [s[|s| - 1]] else []
  }

  /** The paths not known to be unsatisfiable. */
  function Alive(s: seq<Path>): seq<Path> {
    if s == [] then []
    else Alive(s[..|s| - 1]) + if s[|s| - 1].kind.Possible? then [s[|s| - 1]] else []
  }

  /** The number of unsatisfiable paths. */
  function Dead(s: seq<Path>): nat {
    if s == [] then 0
    else Dead(s[..|s| - 1]) + if s[|s| - 1].kind.Impossible? then s[|s| - 1].count else 0
  }

  lemma {:induction false} AliveConcat(a: seq<Path>, b: seq<Path>)
    ensures Alive(a + b) == Alive(a) + Alive(b) && Dead(a + b) == Dead(a) + Dead(b)
  {
    if b == [] {
      assert a + b == a;
    } else {
      AliveConcat(a, b[..|b| - 1]);
      assert (a + b)[..|a + b| - 1] == a + b[..|b| - 1];
    }
  }

  lemma {:induction false} OwnConcat(a: seq<Path>, b: seq<Path>, r: Ranking)
    ensures Own(a + b, r) == Own(a, r) + Own(b, r)
  {
    if b == [] {
      assert a + b == a;
    } else {
      OwnConcat(a, b[..|b| - 1], r);
      assert (a + b)[..|a + b| - 1] == a + b[..|b| - 1];
    }
  }

  lemma {:induction false} PushContents(q: seq<Path>, p: Path, merging: bool)
    ensures Alive(Push(q, p, merging)) == Alive(q) + Alive([p])
    ensures Dead(Push(q, p, merging)) == Dead(q) + Dead([p])
  {
    AliveConcat(q, [p]);
    assert [p][..0] == [];
    if q != [] {
      var init, last := q[..|q| - 1], q[|q| - 1];
      var m := p.(count := p.count + last.count);
      AliveConcat(init, [m]);
      assert [m][..0] == [];
    }
  }

  /** Pushing a chunk adds its own paths, once each, and counts every unsatisfiable one. */
  lemma {:induction false} AcceptedContents(q: seq<Path>, chunk: seq<Path>, r: Ranking, merging: bool)
    ensures Alive(Accepted(q, chunk, r, merging)) == Alive(q) + Alive(Own(chunk, r))
    ensures Dead(Accepted(q, chunk, r, merging)) == Dead(q) + Dead(Own(chunk, r))
  {
    if chunk != [] {
      var init, p := chunk[..|chunk| - 1], chunk[|chunk| - 1];
      AcceptedContents(q, init, r, merging);
      if Dominant(p) == r {
        PushContents(Accepted(q, init, r, merging), p, merging);
        AliveConcat(Own(init, r), [p]);
      } else {
        assert Own(chunk, r) == Own(init, r);
      }
    }
  }

  // The limits.

  /** `V{}(pathq::back())`: the value of the last path of the chunk, or the least value there is. */
  function LimitOf(chunk: seq<Path>, r: Ranking): Value {
    if chunk != [] then Normal(chunk[|chunk| - 1], r) else if r.MaxCycles? then Finite(0.0) else NegInf
  }

  /** Nothing that the ranking has yet to deliver exceeds its limit. */
  ghost predicate Bounds(limit: Value, rest: seq<Path>, r: Ranking) {
    forall i :: 0 <= i < |rest| ==> AtMost(Normal(rest[i], r), limit)
  }

  /** After a chunk the new limit bounds the rest of the stream if the chunk was not empty; after an
  empty one only if there is nothing left to bound. */
  lemma {:induction false} LimitSound(s: seq<Path>, n: nat, r: Ranking)
    requires Sorted(s, r) && n <= |s|
    ensures n > 0 ==> Bounds(LimitOf(s[..n], r), s[n..], r)
    ensures n == 0 ==> (Bounds(LimitOf(s[..n], r), s[n..], r) <==>
                        forall i :: 0 <= i < |s| ==> AtMost(Normal(s[i], r), LimitOf([], r)))
  {
    assert s[0..] == s;
  }

  // Both rankings together.

  datatype Side = Side(queue: seq<Path>, limit: Value)

  /** A ranking's stream, how much of it was delivered, and what was taken from its queue. */
  datatype Feed = Feed(stream: seq<Path>, read: nat, taken: seq<Path>) {
    ghost predicate Next(chunk: seq<Path>) {
      read + |chunk| <= |stream| && chunk == stream[read..read + |chunk|]
    }
    ghost function Deliver(chunk: seq<Path>): Feed { this.(read := read + |chunk|) }
    ghost function Rest(): seq<Path> { if read <= |stream| then stream[read..] else [] }
  }

  ghost predicate SideOk(side: Side, feed: Feed, r: Ranking) {
    && Sorted(feed.stream, r) && feed.read <= |feed.stream| && Falling(side.queue, r)
    && Ahead(side.queue, feed, r)
    && SameContents(feed.taken + side.queue, Own(feed.stream[..feed.read], r))
  }

  /** Everything queued counts as much as what is still to come. */
  ghost predicate Ahead(queue: seq<Path>, feed: Feed, r: Ranking) {
    forall i :: feed.read <= i < |feed.stream| ==> AllAtLeast(queue, r, Normal(feed.stream[i], r))
  }

  lemma {:induction false} PullQueue(side: Side, feed: Feed, r: Ranking, chunk: seq<Path>, merging: bool,
                                     limit: Value)
    requires SideOk(side, feed, r) && feed.Next(chunk)
    ensures SideOk(Side(Accepted(side.queue, chunk, r, merging), limit), feed.Deliver(chunk), r)
  {
    PullAhead(side.queue, feed, r, chunk, merging);
    PullContents(side.queue, feed, r, chunk, merging);
  }

  lemma {:induction false} PullAhead(queue: seq<Path>, feed: Feed, r: Ranking, chunk: seq<Path>, merging: bool)
    requires Sorted(feed.stream, r) && Falling(queue, r) && Ahead(queue, feed, r) && feed.Next(chunk)
    ensures Falling(Accepted(queue, chunk, r, merging), r)
    ensures Ahead(Accepted(queue, chunk, r, merging), feed.Deliver(chunk), r)
  {
    var n := feed.read + |chunk|;
    var q := Accepted(queue, chunk, r, merging);
    forall i, j | 0 <= i < j < |chunk| ensures AtMost(Normal(chunk[j], r), Normal(chunk[i], r)) {
      assert chunk[i] == feed.stream[feed.read + i] && chunk[j] == feed.stream[feed.read + j];
    }
    forall i | 0 <= i < |chunk| ensures AllAtLeast(queue, r, Normal(chunk[i], r)) {
      assert chunk[i] == feed.stream[feed.read + i];
    }
    AcceptedFalling(queue, chunk, r, merging);
    forall i | n <= i < |feed.stream| ensures AllAtLeast(q, r, Normal(feed.stream[i], r)) {
      if chunk != [] {
        assert chunk[|chunk| - 1] == feed.stream[n - 1];
        assert AtMost(Normal(feed.stream[i], r), Normal(feed.stream[n - 1], r));
      }
    }
  }

  /** `a` and `b` stand for the same paths. */
  ghost predicate SameContents(a: seq<Path>, b: seq<Path>) {
    Alive(a) == Alive(b) && Dead(a) == Dead(b)
  }

  lemma {:induction false} Associate(taken: seq<Path>, q: seq<Path>, q': seq<Path>, before: seq<Path>,
                                     more: seq<Path>)
    requires SameContents(taken + q, before)
    requires Alive(q') == Alive(q) + Alive(more) && Dead(q') == Dead(q) + Dead(more)
    ensures SameContents(taken + q', before + more)
  {
    AliveConcat(taken, q);
    AliveConcat(taken, q');
    AliveConcat(before, more);
    Regroup(Alive(taken), Alive(q), Alive(more), Alive(before));
  }

  lemma {:induction false} Regroup(a: seq<Path>, b: seq<Path>, c: seq<Path>, d: seq<Path>)
    requires a + b == d
    ensures a + (b + c) == d + c
  {
  }

  lemma {:induction false} PullContents(queue: seq<Path>, feed: Feed, r: Ranking, chunk: seq<Path>, merging: bool)
    requires feed.Next(chunk) && SameContents(feed.taken + queue, Own(feed.stream[..feed.read], r))
    ensures SameContents(feed.taken + Accepted(queue, chunk, r, merging), Own(feed.stream[..feed.read + |chunk|], r))
  {
    var before := feed.stream[..feed.read];
    OwnConcat(before, chunk, r);
    AcceptedContents(queue, chunk, r, merging);
    Associate(feed.taken, queue, Accepted(queue, chunk, r, merging), Own(before, r), Own(chunk, r));
    assert feed.stream[..feed.read + |chunk|] == before + chunk;
  }

  lemma {:induction false} PullLimit(feed: Feed, r: Ranking, chunk: seq<Path>)
    requires Sorted(feed.stream, r) && feed.Next(chunk)
    ensures Bounds(LimitOf(chunk, r), feed.Deliver(chunk).Rest(), r)
      <==> (chunk != [] || Bounds(LimitOf([], r), feed.Rest(), r))
  {
    var s := feed.stream[feed.read..];
    forall i, j | 0 <= i < j < |s| ensures AtMost(Normal(s[j], r), Normal(s[i], r)) {
      assert s[i] == feed.stream[feed.read + i] && s[j] == feed.stream[feed.read + j];
    }
    assert s[..|chunk|] == chunk;
    assert s[|chunk|..] == feed.stream[feed.read + |chunk|..];
    LimitSound(s, |chunk|, r);
  }

  /** `ipathq::take_`: the queue whose first path counts most, unless a limit is higher. */
  function Pick(c: Side, d: Side): Option<Ranking> {
    var l := if c.queue == [] then Finite(0.0) else Normal(c.queue[0], MaxCycles);
    var dram := d.queue != [] && Below(l, Normal(d.queue[0], DramCycles));
    var l' := if dram then Normal(d.queue[0], DramCycles) else l;
    var high := if Below(c.limit, d.limit) then d.limit else c.limit;
    if Below(l', high) then None
    else if dram then Some(DramCycles)
    else if c.queue == [] then None
    else Some(MaxCycles)
  }

  function Picked(c: Side, d: Side): Path
    requires Pick(c, d).Some?
  {
    if Pick(c, d).value.MaxCycles? then c.queue[0] else d.queue[0]
  }

  /** Nothing queued counts more than `p`, and nothing that a ranking will still deliver as its own. */
  ghost predicate Largest(p: Path, c: Side, d: Side, cf: Feed, df: Feed) {
    && Under(p, c.queue) && Under(p, d.queue)
    && Under(p, Own(cf.Rest(), MaxCycles)) && Under(p, Own(df.Rest(), DramCycles))
  }

  ghost predicate Under(p: Path, q: seq<Path>) {
    forall i :: 0 <= i < |q| ==> AtMost(MaxOf(q[i]), MaxOf(p))
  }

  lemma {:induction false} OwnUnder(p: Path, rest: seq<Path>, r: Ranking)
    requires forall i :: 0 <= i < |rest| ==> AtMost(Normal(rest[i], r), MaxOf(p))
    ensures Under(p, Own(rest, r))
  {
    if rest != [] {
      OwnUnder(p, rest[..|rest| - 1], r);
    }
  }

  lemma {:induction false} QueueUnder(p: Path, q: seq<Path>, r: Ranking)
    requires Falling(q, r) && (q != [] ==> AtMost(Normal(q[0], r), MaxOf(p)))
    ensures Under(p, q)
  {
    forall i | 0 <= i < |q| ensures AtMost(MaxOf(q[i]), MaxOf(p)) {
      if i > 0 {
        assert AtMost(Normal(q[i], r), Normal(q[0], r));
      }
    }
  }

  /** A path of the second ranking outweighs an empty first queue. */
  lemma {:induction false} DramPositive(p: Path)
    requires Dominant(p) == DramCycles
    ensures Below(Finite(0.0), Normal(p, DramCycles))
  {
  }

  /** The first path in the queue of a ranking counts at least as much as either ranking may still deliver. */
  ghost predicate Due(queue: seq<Path>, r: Ranking, c: Value, d: Value) {
    queue != [] && AtMost(c, Normal(queue[0], r)) && AtMost(d, Normal(queue[0], r))
  }

  ghost predicate AnyDue(c: Side, d: Side) {
    Due(c.queue, MaxCycles, c.limit, d.limit) || Due(d.queue, DramCycles, c.limit, d.limit)
  }

  /** `take` has something to return exactly if the first path of a queue is due, and then it returns one that is. */
  lemma {:induction false} PickDue(c: Side, d: Side)
    requires Falling(c.queue, MaxCycles) && Falling(d.queue, DramCycles)
    ensures Pick(c, d).Some? <==> AnyDue(c, d)
    ensures Pick(c, d).Some? ==>
      if Pick(c, d).value.MaxCycles? then Due(c.queue, MaxCycles, c.limit, d.limit)
      else Due(d.queue, DramCycles, c.limit, d.limit)
  {
    if d.queue != [] {
      DramPositive(d.queue[0]);
    }
  }

  /** What `take` returns counts as much as anything not taken yet. */
  lemma {:induction false} PickLargest(c: Side, d: Side, cf: Feed, df: Feed)
    requires SideOk(c, cf, MaxCycles) && SideOk(d, df, DramCycles) && Pick(c, d).Some?
    requires Bounds(c.limit, cf.Rest(), MaxCycles) && Bounds(d.limit, df.Rest(), DramCycles)
    ensures Largest(Picked(c, d), c, d, cf, df)
  {
    var p := Picked(c, d);
    assert Dominant(p) == Pick(c, d).value;
    QueueUnder(p, c.queue, MaxCycles);
    QueueUnder(p, d.queue, DramCycles);
    forall i | 0 <= i < |cf.Rest()| ensures AtMost(Normal(cf.Rest()[i], MaxCycles), MaxOf(p)) {
      assert AtMost(Normal(cf.Rest()[i], MaxCycles), c.limit);
    }
    forall i | 0 <= i < |df.Rest()| ensures AtMost(Normal(df.Rest()[i], DramCycles), MaxOf(p)) {
      assert AtMost(Normal(df.Rest()[i], DramCycles), d.limit);
    }
    OwnUnder(p, cf.Rest(), MaxCycles);
    OwnUnder(p, df.Rest(), DramCycles);
  }

  /** A ranking whose queue is empty will deliver nothing of its own that counts more than `p`. */
  ghost predicate Awaits(p: Path, side: Side, feed: Feed, r: Ranking) {
    side.queue == [] ==> Under(p, Own(feed.Rest(), r))
  }

  lemma {:induction false} AheadUnder(p: Path, side: Side, feed: Feed, r: Ranking)
    requires SideOk(side, feed, r) && side.queue != [] && AtMost(Normal(side.queue[0], r), MaxOf(p))
    ensures Under(p, Own(feed.Rest(), r))
  {
    forall i | 0 <= i < |feed.Rest()| ensures AtMost(Normal(feed.Rest()[i], r), MaxOf(p)) {
      assert AllAtLeast(side.queue, r, Normal(feed.stream[feed.read + i], r));
      assert AtMost(Normal(feed.Rest()[i], r), Normal(side.queue[0], r));
    }
    OwnUnder(p, feed.Rest(), r);
  }

  /** Whatever the limits are, `take` returns the largest path exactly if no ranking with an empty queue has yet
  to deliver a larger one. */
  lemma {:induction false} PickExact(c: Side, d: Side, cf: Feed, df: Feed)
    requires SideOk(c, cf, MaxCycles) && SideOk(d, df, DramCycles) && Pick(c, d).Some?
    ensures Dominant(Picked(c, d)) == Pick(c, d).value
    ensures Largest(Picked(c, d), c, d, cf, df) <==>
            Awaits(Picked(c, d), c, cf, MaxCycles) && Awaits(Picked(c, d), d, df, DramCycles)
  {
    var p := Picked(c, d);
    assert Dominant(p) == Pick(c, d).value;
    QueueUnder(p, c.queue, MaxCycles);
    QueueUnder(p, d.queue, DramCycles);
    if c.queue != [] {
      AheadUnder(p, c, cf, MaxCycles);
    }
    if d.queue != [] {
      AheadUnder(p, d, df, DramCycles);
    }
  }

  /** When `p` is the largest path: for certain if the limits bound what is to come, and exactly if no ranking
  with an empty queue has yet to deliver a larger one. */
  ghost predicate Judged(p: Path, c: Side, d: Side, cf: Feed, df: Feed) {
    && (Bounds(c.limit, cf.Rest(), MaxCycles) && Bounds(d.limit, df.Rest(), DramCycles) ==> Largest(p, c, d, cf, df))
    && (Largest(p, c, d, cf, df) <==> Awaits(p, c, cf, MaxCycles) && Awaits(p, d, df, DramCycles))
  }

  lemma {:induction false} PickJudged(c: Side, d: Side, cf: Feed, df: Feed)
    requires SideOk(c, cf, MaxCycles) && SideOk(d, df, DramCycles) && Pick(c, d).Some?
    ensures Judged(Picked(c, d), c, d, cf, df) && Dominant(Picked(c, d)) == Pick(c, d).value
  {
    PickExact(c, d, cf, df);
    if Bounds(c.limit, cf.Rest(), MaxCycles) && Bounds(d.limit, df.Rest(), DramCycles) {
      PickLargest(c, d, cf, df);
    }
  }

  lemma {:induction false} TakeSide(side: Side, feed: Feed, r: Ranking)
    requires SideOk(side, feed, r) && side.queue != []
    ensures SideOk(side.(queue := side.queue[1..]), feed.(taken := feed.taken + [side.queue[0]]), r)
  {
    assert feed.taken + [side.queue[0]] + side.queue[1..] == feed.taken + side.queue;
  }

  /** The ranking of `x` has yet to deliver it, that of `y` has delivered it. */
  function BeforeChunk(x: Path): Side { Side([], MaxOf(x)) }

  function AfterChunk(y: Path): Side { Side([y], MaxOf(y)) }

  /** The sides of both rankings, where `a` belongs to `r`. */
  function CyclesSide(a: Side, b: Side, r: Ranking): Side { if r.MaxCycles? then a else b }

  function DramSide(a: Side, b: Side, r: Ranking): Side { if r.MaxCycles? then b else a }

  function CyclesFeed(a: Feed, b: Feed, r: Ranking): Feed { if r.MaxCycles? then a else b }

  function DramFeed(a: Feed, b: Feed, r: Ranking): Feed { if r.MaxCycles? then b else a }

  /** With `keep-impossible-paths` switched off a chunk may be empty. Whichever of the rankings delivers it, its
  limit falls to the least value although it has more to deliver, and a smaller path is taken first. */
  lemma {:induction false} EmptyChunkMisleads(x: Path, y: Path, r: Ranking)
    requires Dominant(x) == r && Dominant(y) != r && Below(MaxOf(y), MaxOf(x))
    ensures SideOk(BeforeChunk(x), Feed([x], 0, []), r) && SideOk(AfterChunk(y), Feed([y], 1, []), Dominant(y))
    ensures Bounds(BeforeChunk(x).limit, Feed([x], 0, []).Rest(), r)
    ensures Bounds(AfterChunk(y).limit, Feed([y], 1, []).Rest(), Dominant(y))
    ensures var a, b := BeforeChunk(x), AfterChunk(y);
      Higher(CyclesSide(a, b, r).limit, DramSide(a, b, r).limit) == r
    ensures var a, b := BeforeChunk(x).(limit := LimitOf([], r)), AfterChunk(y);
      Misled(CyclesSide(a, b, r), DramSide(a, b, r), CyclesFeed(Feed([x], 0, []), Feed([y], 1, []), r),
             DramFeed(Feed([x], 0, []), Feed([y], 1, []), r))
  {
    NothingRead(x);
    OneRead(y);
    if r.MaxCycles? {
      TakesSmallerDram(x, y);
    } else {
      TakesSmallerCycles(x, y);
    }
  }

  /** `take` returns a path that is not the largest. */
  ghost predicate Misled(c: Side, d: Side, cf: Feed, df: Feed) {
    Pick(c, d).Some? && !Largest(Picked(c, d), c, d, cf, df)
  }

  lemma {:induction false} TakesSmallerDram(x: Path, y: Path)
    requires Dominant(x) == MaxCycles && Dominant(y) == DramCycles && Below(MaxOf(y), MaxOf(x))
    ensures Misled(BeforeChunk(x).(limit := LimitOf([], MaxCycles)), AfterChunk(y), Feed([x], 0, []), Feed([y], 1, []))
  {
    var c, cf := BeforeChunk(x).(limit := LimitOf([], MaxCycles)), Feed([x], 0, []);
    DramPositive(y);
    assert Pick(c, AfterChunk(y)) == Some(DramCycles);
    assert cf.Rest() == [x];
    OwnOne(x, MaxCycles);
    assert !AtMost(MaxOf(Own(cf.Rest(), MaxCycles)[0]), MaxOf(y));
  }

  lemma {:induction false} TakesSmallerCycles(x: Path, y: Path)
    requires Dominant(x) == DramCycles && Dominant(y) == MaxCycles && Below(MaxOf(y), MaxOf(x))
    ensures Misled(AfterChunk(y), BeforeChunk(x).(limit := LimitOf([], DramCycles)), Feed([y], 1, []), Feed([x], 0, []))
  {
    var d, df := BeforeChunk(x).(limit := LimitOf([], DramCycles)), Feed([x], 0, []);
    assert Pick(AfterChunk(y), d) == Some(MaxCycles);
    assert df.Rest() == [x];
    OwnOne(x, DramCycles);
    assert !AtMost(MaxOf(Own(df.Rest(), DramCycles)[0]), MaxOf(y));
  }

  lemma {:induction false} OwnOne(x: Path, r: Ranking)
    requires Dominant(x) == r
    ensures Own([x], r) == [x]
  {
    assert [x][..0] == [];
  }

  lemma {:induction false} NothingRead(x: Path)
    ensures SideOk(BeforeChunk(x), Feed([x], 0, []), Dominant(x))
    ensures Bounds(BeforeChunk(x).limit, Feed([x], 0, []).Rest(), Dominant(x))
  {
    assert [x][..0] == [];
  }

  lemma {:induction false} OneRead(y: Path)
    ensures SideOk(AfterChunk(y), Feed([y], 1, []), Dominant(y))
    ensures Bounds(AfterChunk(y).limit, Feed([y], 1, []).Rest(), Dominant(y))
  {
    OwnOne(y, Dominant(y));
    assert [y][..1] == [y] && [] + [y] == [y];
  }

  class Interleaver {
    var cycles: Side
    var dram: Side
    const merging: bool
    ghost var cyclesFeed: Feed
    ghost var dramFeed: Feed

    ghost predicate Valid() reads this {
      SideOk(cycles, cyclesFeed, MaxCycles) && SideOk(dram, dramFeed, DramCycles)
    }

    /** The limits are what they should be. */
    ghost predicate Bounded() reads this {
      Bounds(cycles.limit, cyclesFeed.Rest(), MaxCycles) && Bounds(dram.limit, dramFeed.Rest(), DramCycles)
    }

    ghost function Chosen(): Ranking reads this { Higher(cycles.limit, dram.limit) }

    ghost function ChosenFeed(): Feed reads this { if Chosen().MaxCycles? then cyclesFeed else dramFeed }

    /** The limits to begin with are the naive bounds of the two rankings. */
    constructor (limitCycles: nat, limitDram: Value, merging: bool, ghost cs: seq<Path>, ghost ds: seq<Path>)
      requires Sorted(cs, MaxCycles) && Sorted(ds, DramCycles)
      ensures Valid() && cyclesFeed == Feed(cs, 0, []) && dramFeed == Feed(ds, 0, [])
      ensures Bounded() <==>
        (Bounds(Finite(limitCycles as real), cs, MaxCycles) && Bounds(Scale(limitDram), ds, DramCycles))
    {
      cycles := Side([], Finite(limitCycles as real));
      dram := Side([], Scale(limitDram));
      this.merging := merging;
      cyclesFeed := Feed(cs, 0, []);
      dramFeed := Feed(ds, 0, []);
    }

    /** The loop of `ipathq::push`. */
    method Accept(q: seq<Path>, chunk: seq<Path>, r: Ranking) returns (q': seq<Path>)
      ensures q' == Accepted(q, chunk, r, merging)
    {
      q' := q;
      for i := 0 to |chunk|
        invariant q' == Accepted(q, chunk[..i], r, merging)
      {
        assert chunk[..i + 1][..i] == chunk[..i];
        if Dominant(chunk[i]) == r {
          q' := Push(q', chunk[i], merging);
        }
      }
      assert chunk[..|chunk|] == chunk;
    }

    /** `pull`: the ranking with the higher limit delivers its next chunk. */
    method Pull(chunk: seq<Path>)
      requires Valid() && ChosenFeed().Next(chunk)
      modifies this
      ensures Valid()
      ensures if old(Chosen()).MaxCycles?
        then dram == old(dram) && dramFeed == old(dramFeed) && cyclesFeed == old(cyclesFeed).Deliver(chunk)
        else cycles == old(cycles) && cyclesFeed == old(cyclesFeed) && dramFeed == old(dramFeed).Deliver(chunk)
      ensures var limit := if old(Chosen()).MaxCycles? then cycles.limit else dram.limit;
        if chunk != [] then limit == Normal(chunk[|chunk| - 1], old(Chosen()))
        else limit == if old(Chosen()).MaxCycles? then Finite(0.0) else NegInf
      ensures old(Bounded()) ==>
        (Bounded() <==> chunk != [] || Bounds(LimitOf([], old(Chosen())), old(ChosenFeed()).Rest(), old(Chosen())))
    {
      var r := Higher(cycles.limit, dram.limit);
      if r == MaxCycles {
        PullQueue(cycles, cyclesFeed, r, chunk, merging, LimitOf(chunk, r));
        PullLimit(cyclesFeed, r, chunk);
        var q := Accept(cycles.queue, chunk, r);
        cycles := Side(q, LimitOf(chunk, r));
        cyclesFeed := cyclesFeed.Deliver(chunk);
      } else {
        PullQueue(dram, dramFeed, r, chunk, merging, LimitOf(chunk, r));
        PullLimit(dramFeed, r, chunk);
        var q := Accept(dram.queue, chunk, r);
        dram := Side(q, LimitOf(chunk, r));
        dramFeed := dramFeed.Deliver(chunk);
      }
    }

    /** `take`. */
    method Take() returns (p: Option<Path>)
      requires Valid()
      modifies this
      ensures Valid() && cycles.limit == old(cycles.limit) && dram.limit == old(dram.limit)
      ensures cyclesFeed.stream == old(cyclesFeed.stream) && cyclesFeed.read == old(cyclesFeed.read)
      ensures dramFeed.stream == old(dramFeed.stream) && dramFeed.read == old(dramFeed.read)
      ensures p.None? ==> unchanged(this)
      ensures p.Some? <==> AnyDue(old(cycles), old(dram))
      ensures p.Some? ==> Judged(p.value, old(cycles), old(dram), old(cyclesFeed), old(dramFeed))
      ensures p.Some? ==>
        if Dominant(p.value).MaxCycles?
        then old(cycles.queue) == [p.value] + cycles.queue && dram == old(dram)
        else old(dram.queue) == [p.value] + dram.queue && cycles == old(cycles)
    {
      PickDue(cycles, dram);
      var pick := Pick(cycles, dram);
      if pick.None? {
        return None;
      }
      p := Some(Picked(cycles, dram));
      PickJudged(cycles, dram, cyclesFeed, dramFeed);
      if pick.value.MaxCycles? {
        TakeCycles();
      } else {
        TakeDram();
      }
    }

    method TakeCycles()
      requires Valid() && cycles.queue != []
      modifies this`cycles, this`cyclesFeed
      ensures Valid() && cycles == old(cycles).(queue := old(cycles).queue[1..])
      ensures cyclesFeed == old(cyclesFeed).(taken := old(cyclesFeed).taken + [old(cycles).queue[0]])
    {
      TakeSide(cycles, cyclesFeed, MaxCycles);
      cyclesFeed := cyclesFeed.(taken := cyclesFeed.taken + [cycles.queue[0]]);
      cycles := cycles.(queue := cycles.queue[1..]);
    }

    method TakeDram()
      requires Valid() && dram.queue != []
      modifies this`dram, this`dramFeed
      ensures Valid() && dram == old(dram).(queue := old(dram).queue[1..])
      ensures dramFeed == old(dramFeed).(taken := old(dramFeed).taken + [old(dram).queue[0]])
    {
      TakeSide(dram, dramFeed, DramCycles);
      dramFeed := dramFeed.(taken := dramFeed.taken + [dram.queue[0]]);
      dram := dram.(queue := dram.queue[1..]);
    }
  }
}
