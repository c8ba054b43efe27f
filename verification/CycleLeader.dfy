/** The middle part of `radix_sort`: every value moves into the bucket of its high half, in place. */
module CycleLeader {
  import opened Counting

  const LIMIT: nat := 0x1_0000_0000

  ghost predicate Words(s: seq<nat>) {
    forall i :: 0 <= i < |s| ==> s[i] < LIMIT
  }

  /** Where bucket `x` begins, and where bucket `x - 1` ends. */
  ghost function Start(f: seq<nat>, x: nat): nat
    requires x <= |f|
  {
    Total(f[..x])
  }

  lemma {:induction false} StartMonotone(f: seq<nat>, x: nat, y: nat)
    requires x < y < |f|
    ensures Start(f, x + 1) <= Start(f, y)
  {
    TotalMonotone(f, x + 1, y);
  }

  lemma {:induction false} StartEnd(f: seq<nat>, x: nat)
    requires x < |f|
    ensures Start(f, x + 1) <= Total(f)
  {
    TotalMonotone(f, x + 1, |f|);
    assert f[..|f|] == f;
  }

  /** Each pointer is inside its bucket. */
  ghost predicate InRange(f: seq<nat>, ptr: seq<nat>) {
    && |f| == |ptr| == BUCKETS
    && (forall y {:trigger ptr[y]} :: 0 <= y < BUCKETS ==> Start(f, y) <= ptr[y] <= Start(f, y + 1))
  }

  /** What a pointer has passed is in its bucket. */
  ghost predicate Placed(f: seq<nat>, ptr: seq<nat>, v: seq<nat>)
    requires |f| == |ptr| == BUCKETS
  {
    forall y {:trigger PlacedIn(f, ptr, v, y)} :: 0 <= y < BUCKETS ==> PlacedIn(f, ptr, v, y)
  }

  ghost predicate PlacedIn(f: seq<nat>, ptr: seq<nat>, v: seq<nat>, y: nat)
    requires |f| == |ptr| && y < |f|
  {
    forall i :: Start(f, y) <= i < ptr[y] && i < |v| ==> High(v[i]) == y
  }

  ghost predicate Progress(f: seq<nat>, ptr: seq<nat>, v: seq<nat>) {
    InRange(f, ptr) && Placed(f, ptr, v) && Tallied(f, v, true) && Words(v)
  }

  /** Positions of different buckets differ. */
  lemma {:induction false} Disjoint(f: seq<nat>, x: nat, y: nat, i: nat, j: nat)
    requires x < |f| && y < |f| && x != y
    requires Start(f, x) <= i < Start(f, x + 1) && Start(f, y) <= j < Start(f, y + 1)
    ensures i != j
  {
    if x < y {
      StartMonotone(f, x, y);
    } else {
      StartMonotone(f, y, x);
    }
  }

  lemma {:induction false} WordKey(v: nat)
    requires v < LIMIT
    ensures High(v) < BUCKETS
  {
  }

  /** The bucket of a value that is not in its place has room. */
  lemma {:induction false} Room(f: seq<nat>, ptr: seq<nat>, v: seq<nat>, p: nat, y: nat)
    requires Progress(f, ptr, v) && p < |v| && y < BUCKETS && High(v[p]) == y
    requires !(Start(f, y) <= p < ptr[y])
    ensures ptr[y] < Start(f, y + 1) <= |v|
  {
    StartEnd(f, y);
    TotalNext(f, y);
    assert PlacedIn(f, ptr, v, y);
    CountBeside(v, true, y, Start(f, y), ptr[y], p);
  }

  function Swap(v: seq<nat>, i: nat, j: nat): seq<nat>
    requires i < |v| && j < |v|
  {
    v[i := v[j]][j := v[i]]
  }

  lemma {:induction false} SwapTallied(f: seq<nat>, v: seq<nat>, i: nat, j: nat)
    requires Tallied(f, v, true) && Words(v) && i < |v| && j < |v| && i != j
    ensures Tallied(f, Swap(v, i, j), true) && Words(Swap(v, i, j)) && multiset(Swap(v, i, j)) == multiset(v)
  {
    forall k | 0 <= k < BUCKETS ensures Count(Swap(v, i, j), true, k) == Count(v, true, k) {
      CountUpdate(v, i, v[j], true, k);
      CountUpdate(v[i := v[j]], j, v[i], true, k);
    }
  }

  /** The value at the pointer of bucket `x` belongs to bucket `y` and changes places with the one at
  the pointer of `y`, which moves on. */
  lemma {:induction false} SwapPlaced(f: seq<nat>, ptr: seq<nat>, v: seq<nat>, x: nat, y: nat)
    requires Progress(f, ptr, v) && x < BUCKETS && y < BUCKETS && x != y
    requires ptr[x] < Start(f, x + 1) <= |v| && High(v[ptr[x]]) == y
    ensures ptr[y] < Start(f, y + 1) <= |v| && ptr[x] != ptr[y]
    ensures Progress(f, ptr[y := ptr[y] + 1], Swap(v, ptr[x], ptr[y]))
    ensures multiset(Swap(v, ptr[x], ptr[y])) == multiset(v)
  {
    assert !(Start(f, y) <= ptr[x] < ptr[y]) by {
      if Start(f, y) <= ptr[x] < ptr[y] {
        Disjoint(f, x, y, ptr[x], ptr[x]);
      }
    }
    Room(f, ptr, v, ptr[x], y);
    Disjoint(f, x, y, ptr[x], ptr[y]);
    SwapTallied(f, v, ptr[x], ptr[y]);
    var ptr', v' := ptr[y := ptr[y] + 1], Swap(v, ptr[x], ptr[y]);
    forall z | 0 <= z < BUCKETS ensures PlacedIn(f, ptr', v', z) {
      SwapPlacedIn(f, ptr, v, x, y, z);
    }
  }

  lemma {:induction false} SwapPlacedIn(f: seq<nat>, ptr: seq<nat>, v: seq<nat>, x: nat, y: nat, z: nat)
    requires InRange(f, ptr) && Placed(f, ptr, v) && x < BUCKETS && y < BUCKETS && z < BUCKETS && x != y
    requires ptr[x] < Start(f, x + 1) <= |v| && ptr[y] < Start(f, y + 1) <= |v| && High(v[ptr[x]]) == y
    requires ptr[x] != ptr[y]
    ensures PlacedIn(f, ptr[y := ptr[y] + 1], Swap(v, ptr[x], ptr[y]), z)
  {
    var ptr', v' := ptr[y := ptr[y] + 1], Swap(v, ptr[x], ptr[y]);
    assert PlacedIn(f, ptr, v, z);
    forall i | Start(f, z) <= i < ptr'[z] && i < |v| ensures High(v'[i]) == z {
      assert ptr'[z] <= Start(f, z + 1) by {
        assert ptr[z] <= Start(f, z + 1);
      }
      if z != x {
        Disjoint(f, x, z, ptr[x], i);
      }
      if z != y {
        Disjoint(f, y, z, ptr[y], i);
      }
    }
  }

  /** The value at the pointer of its own bucket stays. */
  lemma {:induction false} Stay(f: seq<nat>, ptr: seq<nat>, v: seq<nat>, x: nat)
    requires Progress(f, ptr, v) && x < BUCKETS && ptr[x] < Start(f, x + 1) <= |v| && High(v[ptr[x]]) == x
    ensures Progress(f, ptr[x := ptr[x] + 1], v)
  {
    var ptr' := ptr[x := ptr[x] + 1];
    forall z | 0 <= z < BUCKETS ensures PlacedIn(f, ptr', v, z) {
      assert PlacedIn(f, ptr, v, z);
    }
  }

  lemma {:induction false} TotalBounded(p: seq<nat>, q: seq<nat>)
    requires |p| == |q| && forall i :: 0 <= i < |p| ==> p[i] <= q[i]
    ensures Total(p) <= Total(q)
  {
    if p != [] {
      TotalBounded(p[..|p| - 1], q[..|q| - 1]);
    }
  }

  /** `last` after it has been accumulated. */
  ghost predicate Ends(f: seq<nat>, last: seq<nat>) {
    |f| == |last| == BUCKETS && forall y {:trigger last[y]} :: 0 <= y < BUCKETS ==> last[y] == Start(f, y + 1)
  }

  ghost predicate Begins(f: seq<nat>, ptr: seq<nat>) {
    |f| == |ptr| == BUCKETS && forall y {:trigger ptr[y]} :: 0 <= y < BUCKETS ==> ptr[y] == Start(f, y)
  }

  /** Frequencies become the ends of the buckets, and the pointers start at their beginnings. */
  method Accumulate(last: array<nat>) returns (pointer: array<nat>)
    requires last.Length == BUCKETS
    modifies last
    ensures fresh(pointer) && pointer.Length == BUCKETS
    ensures Ends(old(last[..]), last[..]) && Begins(old(last[..]), pointer[..])
  {
    ghost var f := last[..];
    pointer := new nat[BUCKETS](_ => 0);
    assert f[..0] == [];
    TotalNext(f, 0);
    for x := 1 to BUCKETS
      invariant fresh(pointer) && pointer.Length == BUCKETS
      invariant forall y {:trigger pointer[y]} :: 0 <= y < x ==> pointer[y] == Start(f, y)
      invariant forall y {:trigger last[y]} :: 0 <= y < BUCKETS ==> last[y] == if y < x then Start(f, y + 1) else f[y]
    {
      TotalNext(f, x);
      pointer[x] := last[x - 1];
      last[x] := last[x] + last[x - 1];
    }
  }

  lemma {:induction false} BeginsProgress(f: seq<nat>, ptr: seq<nat>, v: seq<nat>)
    requires Begins(f, ptr) && Tallied(f, v, true) && Words(v)
    ensures Progress(f, ptr, v)
  {
    forall y | 0 <= y < BUCKETS ensures Start(f, y) <= ptr[y] <= Start(f, y + 1) {
      TotalNext(f, y);
    }
  }

  /** The pointers moved on, that of `x` not at all. */
  ghost predicate Onward(before: seq<nat>, after: seq<nat>, x: nat) {
    |before| == |after| && x < |before| && after[x] == before[x]
    && forall y :: 0 <= y < |after| ==> before[y] <= after[y]
  }

  /** `value` has been lifted from the pointer of `x`, and put back it would complete the elements `m`. */
  ghost predicate Lifted(f: seq<nat>, ptr: seq<nat>, a: seq<nat>, x: nat, value: nat, m: multiset<nat>) {
    && |ptr| == |f| == BUCKETS && x < BUCKETS && ptr[x] < Start(f, x + 1) <= |a|
    && Progress(f, ptr, a[ptr[x] := value])
    && multiset(a[ptr[x] := value]) == m
  }

  /** Putting `value` at the pointer of its bucket and lifting what was there. */
  lemma {:induction false} Displace(f: seq<nat>, ptr: seq<nat>, a: seq<nat>, x: nat, value: nat, m: multiset<nat>)
    requires Lifted(f, ptr, a, x, value, m) && High(value) != x
    ensures High(value) < BUCKETS && ptr[High(value)] < |a|
    ensures var y := High(value);
      Lifted(f, ptr[y := ptr[y] + 1], a[ptr[y] := value], x, a[ptr[y]], m)
  {
    var v, y := a[ptr[x] := value], High(value);
    assert v[ptr[x]] == value;
    WordKey(value);
    SwapPlaced(f, ptr, v, x, y);
    ExchangeSwaps(a, ptr[x], ptr[y], value);
  }

  lemma {:induction false} ExchangeSwaps(a: seq<nat>, i: nat, j: nat, value: nat)
    requires i < |a| && j < |a| && i != j
    ensures a[j := value][i := a[j]] == Swap(a[i := value], i, j)
  {
  }

  lemma {:induction false} Lift(f: seq<nat>, ptr: seq<nat>, last: seq<nat>, a: seq<nat>, x: nat)
    requires Progress(f, ptr, a) && Ends(f, last) && x < BUCKETS && ptr[x] != last[x]
    ensures ptr[x] < |a| && Lifted(f, ptr, a, x, a[ptr[x]], multiset(a))
  {
    StartEnd(f, x);
    assert a[ptr[x] := a[ptr[x]]] == a;
  }

  lemma {:induction false} PutBack(f: seq<nat>, ptr: seq<nat>, a: seq<nat>, x: nat, value: nat, m: multiset<nat>)
    requires Lifted(f, ptr, a, x, value, m) && High(value) == x
    ensures Progress(f, ptr[x := ptr[x] + 1], a[ptr[x] := value]) && multiset(a[ptr[x] := value]) == m
  {
    Stay(f, ptr, a[ptr[x] := value], x);
  }

  ghost function Left(last: seq<nat>, ptr: seq<nat>): int { Total(last) - Total(ptr) }

  lemma {:induction false} Closer(f: seq<nat>, ptr: seq<nat>, last: seq<nat>, y: nat)
    requires |ptr| == BUCKETS && y < BUCKETS && InRange(f, ptr[y := ptr[y] + 1]) && Ends(f, last)
    ensures Left(last, ptr) > Left(last, ptr[y := ptr[y] + 1]) >= 0
  {
    TotalUpdate(ptr, y, ptr[y] + 1);
    Shrinks(f, ptr[y := ptr[y] + 1], last);
  }

  /** Puts `value` at the pointer of bucket `y`, which moves on, and returns what was there. */
  method Exchange(a: array<nat>, pointer: array<nat>, y: nat, value: nat) returns (temp: nat)
    requires a != pointer && y < pointer.Length && pointer[y] < a.Length
    modifies a, pointer
    ensures temp == old(a[pointer[y]])
    ensures a[..] == old(a[..][pointer[y] := value]) && pointer[..] == old(pointer[..][y := pointer[y] + 1])
  {
    temp := a[pointer[y]];
    a[pointer[y]] := value;
    pointer[y] := pointer[y] + 1;
  }

  /** A cycle of displacements, until what has been lifted belongs to bucket `x`. */
  method Follow(a: array<nat>, pointer: array<nat>, last: array<nat>, x: nat, ghost f: seq<nat>) returns (value: nat)
    requires a != pointer && a != last && pointer != last && pointer.Length == last.Length == BUCKETS
    requires Ends(f, last[..]) && Progress(f, pointer[..], a[..])
    requires x < BUCKETS && pointer[x] != last[x]
    modifies a, pointer
    ensures Onward(old(pointer[..]), pointer[..], x) && High(value) == x
    ensures Lifted(f, pointer[..], a[..], x, value, old(multiset(a[..])))
  {
    ghost var m := multiset(a[..]);
    Lift(f, pointer[..], last[..], a[..], x);
    value := a[pointer[x]];
    var y := High(value);
    while x != y
      invariant Onward(old(pointer[..]), pointer[..], x) && y == High(value)
      invariant Lifted(f, pointer[..], a[..], x, value, m)
      decreases Left(last[..], pointer[..])
    {
      value := Turn(a, pointer, last, x, y, value, f, m);
      y := High(value);
    }
  }

  /** One displacement. */
  method Turn(a: array<nat>, pointer: array<nat>, last: array<nat>, x: nat, y: nat, value: nat,
              ghost f: seq<nat>, ghost m: multiset<nat>) returns (value': nat)
    requires a != pointer && a != last && pointer != last && pointer.Length == last.Length == BUCKETS
    requires Ends(f, last[..]) && Lifted(f, pointer[..], a[..], x, value, m) && y == High(value) != x
    modifies a, pointer
    ensures Onward(old(pointer[..]), pointer[..], x) && Lifted(f, pointer[..], a[..], x, value', m)
    ensures Left(last[..], pointer[..]) < Left(old(last[..]), old(pointer[..])) && Left(last[..], pointer[..]) >= 0
  {
    Displace(f, pointer[..], a[..], x, value, m);
    Closer(f, pointer[..], last[..], y);
    value' := Exchange(a, pointer, y, value);
  }

  /** One round of `radix_sort`'s outer `while` loop. */
  method Round(a: array<nat>, pointer: array<nat>, last: array<nat>, x: nat, ghost f: seq<nat>)
    requires a != pointer && a != last && pointer != last && pointer.Length == last.Length == BUCKETS
    requires Ends(f, last[..]) && Progress(f, pointer[..], a[..])
    requires x < BUCKETS && pointer[x] != last[x]
    modifies a, pointer
    ensures Progress(f, pointer[..], a[..]) && multiset(a[..]) == old(multiset(a[..]))
    ensures pointer[x] == old(pointer[x]) + 1 && forall y :: 0 <= y < BUCKETS ==> old(pointer[y]) <= pointer[y]
  {
    var value := Follow(a, pointer, last, x, f);
    PutBack(f, pointer[..], a[..], x, value, old(multiset(a[..])));
    value := Exchange(a, pointer, x, value);
  }

  ghost predicate Full(ptr: seq<nat>, last: seq<nat>, x: nat) {
    |ptr| == |last| && forall y :: 0 <= y < x && y < |ptr| ==> ptr[y] == last[y]
  }

  /** Buckets that are full stay full. */
  lemma {:induction false} StaysFull(f: seq<nat>, ptr: seq<nat>, ptr': seq<nat>, last: seq<nat>, x: nat)
    requires Full(ptr, last, x) && InRange(f, ptr') && Ends(f, last) && |ptr| == |ptr'|
    requires forall y :: 0 <= y < |ptr| ==> ptr[y] <= ptr'[y]
    ensures Full(ptr', last, x)
  {
    forall y | 0 <= y < x && y < |ptr'| ensures ptr'[y] == last[y] {
      assert ptr[y] == last[y];
    }
  }

  method Permute(a: array<nat>, pointer: array<nat>, last: array<nat>, ghost f: seq<nat>)
    requires a != pointer && a != last && pointer != last && pointer.Length == last.Length == BUCKETS
    requires Ends(f, last[..]) && Progress(f, pointer[..], a[..])
    modifies a, pointer
    ensures Progress(f, pointer[..], a[..]) && multiset(a[..]) == old(multiset(a[..]))
    ensures Full(pointer[..], last[..], BUCKETS)
  {
    for x := 0 to BUCKETS
      invariant Progress(f, pointer[..], a[..]) && multiset(a[..]) == old(multiset(a[..]))
      invariant Full(pointer[..], last[..], x)
    {
      while pointer[x] != last[x]
        invariant Progress(f, pointer[..], a[..]) && multiset(a[..]) == old(multiset(a[..]))
        invariant Full(pointer[..], last[..], x) && pointer[x] <= last[x]
        decreases last[x] - pointer[x]
      {
        ghost var ptr := pointer[..];
        Round(a, pointer, last, x, f);
        StaysFull(f, ptr, pointer[..], last[..], x);
        assert pointer[..][x] <= last[..][x];
      }
    }
  }

  lemma {:induction false} Shrinks(f: seq<nat>, ptr: seq<nat>, last: seq<nat>)
    requires InRange(f, ptr) && Ends(f, last)
    ensures Total(ptr) <= Total(last)
  {
    forall i | 0 <= i < |ptr| ensures ptr[i] <= last[i] {
    }
    TotalBounded(ptr, last);
  }
}
