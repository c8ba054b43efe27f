/** `radix_sort` and `radix_sort16`: 32-bit values are moved into 65536 buckets by their high halves, in
place, following the cycles of the permutation; then each bucket is rewritten from a count of low halves. */
module RadixSort {
  import opened Counting
  import opened CycleLeader

  ghost predicate SortedUpTo(s: seq<nat>, n: nat) {
    forall i, j :: 0 <= i < j < n && j < |s| ==> s[i] <= s[j]
  }

  // One bucket.

  function Repeat(v: nat, n: nat): seq<nat> { seq(n, _ => v) }

  /** Each low half below `k`, as often as it was counted. */
  ghost function Spread(f: seq<nat>, base: nat, k: nat): seq<nat>
    requires k <= |f|
  {
    if k == 0 then [] else Spread(f, base, k - 1) + Repeat(base + k - 1, f[k - 1])
  }

  lemma {:induction false} SpreadSorted(f: seq<nat>, base: nat, k: nat)
    requires k <= |f|
    ensures |Spread(f, base, k)| == Total(f[..k])
    ensures forall i :: 0 <= i < |Spread(f, base, k)| ==> base <= Spread(f, base, k)[i] < base + k
    ensures SortedUpTo(Spread(f, base, k), |Spread(f, base, k)|)
  {
    if k > 0 {
      SpreadSorted(f, base, k - 1);
      TotalNext(f, k - 1);
    }
  }

  lemma {:induction false} RepeatCount(v: nat, n: nat, w: nat)
    ensures multiset(Repeat(v, n))[w] == if v == w then n else 0
  {
    if n > 0 {
      RepeatCount(v, n - 1, w);
      assert Repeat(v, n) == Repeat(v, n - 1) + [v];
    }
  }

  lemma {:induction false} SpreadCount(f: seq<nat>, base: nat, k: nat, w: nat)
    requires k <= |f|
    ensures multiset(Spread(f, base, k))[w] == if base <= w < base + k then f[w - base] else 0
  {
    if k > 0 {
      SpreadCount(f, base, k - 1, w);
      RepeatCount(base + k - 1, f[k - 1], w);
    }
  }

  ghost predicate InBucket(s: seq<nat>, h: nat) {
    forall i :: 0 <= i < |s| ==> High(s[i]) == h
  }

  lemma {:induction false} BucketCount(s: seq<nat>, h: nat, w: nat)
    requires InBucket(s, h)
    ensures multiset(s)[w] == if High(w) == h then Count(s, false, Low(w)) else 0
  {
    if s != [] {
      BucketCount(s[..|s| - 1], h, w);
      assert s == s[..|s| - 1] + [s[|s| - 1]];
      Halves(s[|s| - 1]);
      Halves(w);
    }
  }

  lemma {:induction false} Halves(v: nat)
    ensures v == BUCKETS * High(v) + Low(v) && Low(v) < BUCKETS
  {
  }

  lemma {:induction false} HighOf(h: nat, w: nat)
    ensures High(w) == h <==> BUCKETS * h <= w < BUCKETS * h + BUCKETS
  {
  }

  /** Rewriting a bucket from its frequencies gives the same values. */
  lemma {:induction false} SpreadPermutes(f: seq<nat>, s: seq<nat>, h: nat)
    requires InBucket(s, h) && Tallied(f, s, false)
    ensures multiset(Spread(f, BUCKETS * h, BUCKETS)) == multiset(s)
  {
    var before: multiset<nat>, after: multiset<nat> := multiset(s), multiset(Spread(f, BUCKETS * h, BUCKETS));
    forall w: nat ensures after[w] == before[w] {
      SpreadCount(f, BUCKETS * h, BUCKETS, w);
      BucketCount(s, h, w);
      HighOf(h, w);
      Halves(w);
    }
  }

  method Fill(a: array<nat>, from: nat, n: nat, v: nat)
    requires from + n <= a.Length
    modifies a
    ensures a[..from + n] == old(a[..from]) + Repeat(v, n) && a[from + n..] == old(a[from + n..])
  {
    for i := 0 to n
      invariant forall k :: 0 <= k < a.Length ==> a[k] == if from <= k < from + i then v else old(a[k])
    {
      a[from + i] := v;
    }
  }

  /** The last loop of `radix_sort16`. */
  method Rewrite(a: array<nat>, offset: nat, end: nat, f: array<nat>, base: nat)
    requires offset <= end <= a.Length && f != a && f.Length == BUCKETS && Total(f[..]) == end - offset
    modifies a
    ensures a[..end] == old(a[..offset]) + Spread(f[..], base, BUCKETS) && a[end..] == old(a[end..])
  {
    ghost var fs := f[..];
    assert fs[..BUCKETS] == fs;
    var ptr := offset;
    for x := 0 to BUCKETS
      invariant f[..] == fs && ptr == offset + Total(fs[..x]) && ptr <= end
      invariant a[..ptr] == old(a[..offset]) + Spread(fs, base, x)
      invariant a[end..] == old(a[end..])
    {
      TotalNext(fs, x);
      TotalMonotone(fs, x + 1, BUCKETS);
      ghost var end' := ptr + f[x];
      ghost var tail := a[end'..];
      assert tail[end - end'..] == a[end..];
      Fill(a, ptr, f[x], base + x);
      assert a[end'..][end - end'..] == a[end..];
      ptr := ptr + f[x];
    }
  }

  /** `r` has the elements of `s`, in order. */
  ghost predicate Sorts(r: seq<nat>, s: seq<nat>) {
    |r| == |s| && SortedUpTo(r, |r|) && multiset(r) == multiset(s)
  }

  lemma {:induction false} SpreadSorts(f: seq<nat>, s: seq<nat>, h: nat, base: nat)
    requires s != [] && InBucket(s, h) && Tallied(f, s, false) && base == s[0] - Low(s[0])
    ensures Sorts(Spread(f, base, BUCKETS), s)
  {
    Halves(s[0]);
    SpreadPermutes(f, s, h);
    SpreadSorted(f, base, BUCKETS);
    assert f[..BUCKETS] == f;
  }

  lemma {:induction false} Slices(whole: seq<nat>, front: seq<nat>, middle: seq<nat>)
    requires |front| + |middle| <= |whole| && whole[..|front| + |middle|] == front + middle
    ensures whole[..|front|] == front && whole[|front|..|front| + |middle|] == middle
  {
    assert whole[..|front|] == whole[..|front| + |middle|][..|front|];
    assert whole[|front|..|front| + |middle|] == whole[..|front| + |middle|][|front|..];
  }

  /** `radix_sort16`. */
  method SortBucket(a: array<nat>, offset: nat, end: nat, ghost h: nat)
    requires offset < end <= a.Length && InBucket(a[offset..end], h)
    modifies a
    ensures a[..offset] == old(a[..offset]) && a[end..] == old(a[end..])
    ensures Sorts(a[offset..end], old(a[offset..end]))
  {
    ghost var s := a[offset..end];
    Halves(a[offset]);
    var base := a[offset] - Low(a[offset]);
    var f := Tally(a, offset, end, false);
    ghost var r := Spread(f[..], base, BUCKETS);
    SpreadSorts(f[..], s, h, base);
    Rewrite(a, offset, end, f, base);
    Slices(a[..], old(a[..offset]), r);
  }

  // All buckets.

  /** The first `x` buckets are sorted, the others hold what belongs there. */
  ghost predicate Done(f: seq<nat>, s: seq<nat>, x: nat) {
    && |f| == BUCKETS && x <= BUCKETS && Start(f, x) <= |s| == Total(f)
    && SortedUpTo(s, Start(f, x))
    && (forall i :: 0 <= i < Start(f, x) ==> High(s[i]) < x)
    && (forall y {:trigger Holds(f, s, y)} :: x <= y < BUCKETS ==> Holds(f, s, y))
  }

  ghost predicate Holds(f: seq<nat>, s: seq<nat>, y: nat) {
    y < |f| && forall i :: Start(f, y) <= i < Start(f, y + 1) && i < |s| ==> High(s[i]) == y
  }

  lemma {:induction false} FullHolds(f: seq<nat>, ptr: seq<nat>, last: seq<nat>, s: seq<nat>)
    requires Progress(f, ptr, s) && Ends(f, last) && Full(ptr, last, BUCKETS)
    ensures Done(f, s, 0)
  {
    forall y | 0 <= y < BUCKETS ensures Holds(f, s, y) {
      assert PlacedIn(f, ptr, s, y) && ptr[y] == last[y];
    }
  }

  /** `s'` is `s` with bucket `x` sorted. */
  ghost predicate BucketSorted(f: seq<nat>, s: seq<nat>, s': seq<nat>, x: nat) {
    && x < |f| && Start(f, x) <= Start(f, x + 1) <= |s| == |s'|
    && s'[..Start(f, x)] == s[..Start(f, x)] && s'[Start(f, x + 1)..] == s[Start(f, x + 1)..]
    && Sorts(s'[Start(f, x)..Start(f, x + 1)], s[Start(f, x)..Start(f, x + 1)])
  }

  lemma {:induction false} SameKeys(r: seq<nat>, s: seq<nat>, h: nat)
    requires InBucket(s, h) && multiset(r) == multiset(s)
    ensures InBucket(r, h)
  {
    forall i | 0 <= i < |r| ensures High(r[i]) == h {
      assert r[i] in multiset(s);
      var k :| 0 <= k < |s| && s[k] == r[i];
    }
  }

  lemma {:induction false} DoneNext(f: seq<nat>, s: seq<nat>, s': seq<nat>, x: nat)
    requires Done(f, s, x) && BucketSorted(f, s, s', x)
    ensures Done(f, s', x + 1) && multiset(s') == multiset(s)
  {
    var b, e := Start(f, x), Start(f, x + 1);
    assert s == s[..b] + s[b..e] + s[e..] && s' == s'[..b] + s'[b..e] + s'[e..];
    assert Holds(f, s, x);
    SameKeys(s'[b..e], s[b..e], x);
    assert forall i :: 0 <= i < b ==> s'[i] == s'[..b][i] == s[..b][i] == s[i];
    assert forall i :: b <= i < e ==> s'[i] == s'[b..e][i - b];
    DoneSorted(s', b, e, x);
    forall y | x + 1 <= y < BUCKETS ensures Holds(f, s', y) {
      HoldsBeyond(f, s, s', x, y);
    }
  }

  lemma {:induction false} HoldsBeyond(f: seq<nat>, s: seq<nat>, s': seq<nat>, x: nat, y: nat)
    requires BucketSorted(f, s, s', x) && x < y < |f| && Holds(f, s, y)
    ensures Holds(f, s', y)
  {
    StartMonotone(f, x, y);
    var e := Start(f, x + 1);
    forall i | Start(f, y) <= i < Start(f, y + 1) && i < |s'| ensures High(s'[i]) == y {
      assert s'[i] == s'[e..][i - e] == s[e..][i - e] == s[i];
    }
  }

  lemma {:induction false} HighOrder(v: nat, w: nat)
    requires High(v) < High(w)
    ensures v < w
  {
  }

  lemma {:induction false} DoneSorted(s: seq<nat>, b: nat, e: nat, x: nat)
    requires b <= e <= |s| && SortedUpTo(s[b..e], e - b)
    requires forall i, j :: 0 <= i < j < b ==> s[i] <= s[j]
    requires forall i :: 0 <= i < b ==> High(s[i]) < x
    requires forall i :: b <= i < e ==> High(s[i]) == x
    ensures SortedUpTo(s, e)
  {
    forall i, j | 0 <= i < j < e ensures s[i] <= s[j] {
      if i < b <= j {
        HighOrder(s[i], s[j]);
      } else if b <= i {
        assert s[i] == s[b..e][i - b] && s[j] == s[b..e][j - b];
      }
    }
  }

  lemma {:induction false} EmptyBucket(f: seq<nat>, s: seq<nat>, x: nat)
    requires x < |f| && Start(f, x) == Start(f, x + 1) <= |s|
    ensures BucketSorted(f, s, s, x)
  {
  }

  /** Sorts bucket `x`, which ends at `end`, unless it is empty. */
  method SortOne(a: array<nat>, begin: nat, end: nat, x: nat, ghost f: seq<nat>)
    requires Done(f, a[..], x) && x < BUCKETS && begin == Start(f, x) && end == Start(f, x + 1)
    modifies a
    ensures Done(f, a[..], x + 1) && multiset(a[..]) == old(multiset(a[..]))
  {
    ghost var s := a[..];
    TotalNext(f, x);
    StartEnd(f, x);
    if end != begin {
      assert Holds(f, s, x);
      SortBucket(a, begin, end, x);
      assert a[..][..begin] == a[..begin] && a[..][begin..end] == a[begin..end] && a[..][end..] == a[end..];
      assert s[..begin] == old(a[..begin]) && s[begin..end] == old(a[begin..end]) && s[end..] == old(a[end..]);
    } else {
      EmptyBucket(f, s, x);
    }
    DoneNext(f, s, a[..], x);
  }

  /** `radix_sort` sorts any array of 32-bit values. */
  method Sort(a: array<nat>)
    requires Words(a[..])
    modifies a
    ensures SortedUpTo(a[..], a.Length) && multiset(a[..]) == old(multiset(a[..]))
  {
    assert a[0..a.Length] == a[..];
    forall i | 0 <= i < a.Length ensures Key(true, a[i]) < BUCKETS {
      WordKey(a[..][i]);
    }
    var last := Tally(a, 0, a.Length, true);
    ghost var f := last[..];
    var pointer := Accumulate(last);
    BeginsProgress(f, pointer[..], a[..]);
    Permute(a, pointer, last, f);
    FullHolds(f, pointer[..], last[..], a[..]);
    SortBuckets(a, pointer, f);
  }

  /** The last part of `radix_sort`. */
  method SortBuckets(a: array<nat>, pointer: array<nat>, ghost f: seq<nat>)
    requires a != pointer && pointer.Length == BUCKETS && Done(f, a[..], 0) && Ends(f, pointer[..])
    modifies a
    ensures SortedUpTo(a[..], a.Length) && multiset(a[..]) == old(multiset(a[..]))
  {
    assert pointer[..][0] == pointer[0] && f[..0] == [];
    SortOne(a, 0, pointer[0], 0, f);
    for x := 1 to BUCKETS
      invariant Done(f, a[..], x) && multiset(a[..]) == old(multiset(a[..]))
      invariant Ends(f, pointer[..])
    {
      assert pointer[..][x] == pointer[x] && pointer[..][x - 1] == pointer[x - 1];
      SortOne(a, pointer[x - 1], pointer[x], x, f);
    }
    assert f[..BUCKETS] == f;
  }
}
