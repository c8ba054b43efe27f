/** Frequencies of keys in a sequence and their running totals. */
module Counting {

  const BUCKETS: nat := 65536

  /** `(value >> 16) & 0xFFFF` and `value & 0xFFFF` of a 32-bit value. */
  function High(v: nat): nat { v / BUCKETS }

  function Low(v: nat): nat { v % BUCKETS }

  function Key(high: bool, v: nat): nat { if high then High(v) else Low(v) }

  ghost function Count(s: seq<nat>, high: bool, k: nat): nat {
    if s == [] then 0
    else Count(s[..|s| - 1], high, k) + if Key(high, s[|s| - 1]) == k then 1 else 0
  }

  ghost function Total(f: seq<nat>): nat {
    if f == [] then 0 else Total(f[..|f| - 1]) + f[|f| - 1]
  }

  lemma {:induction false} TotalUpdate(f: seq<nat>, i: nat, v: nat)
    requires i < |f|
    ensures Total(f[i := v]) + f[i] == Total(f) + v
  {
    var n := |f| - 1;
    if i == n {
      assert f[i := v][..n] == f[..n];
    } else {
      TotalUpdate(f[..n], i, v);
      assert f[i := v][..n] == f[..n][i := v];
    }
  }

  lemma {:induction false} TotalNext(f: seq<nat>, k: nat)
    requires k < |f|
    ensures Total(f[..k + 1]) == Total(f[..k]) + f[k]
  {
    assert f[..k + 1][..k] == f[..k];
  }

  lemma {:induction false} TotalMonotone(f: seq<nat>, i: nat, j: nat)
    requires i <= j <= |f|
    ensures Total(f[..i]) <= Total(f[..j])
    decreases j - i
  {
    if i < j {
      TotalMonotone(f, i, j - 1);
      TotalNext(f, j - 1);
    }
  }

  lemma {:induction false} TotalZero(f: seq<nat>)
    requires forall i :: 0 <= i < |f| ==> f[i] == 0
    ensures Total(f) == 0
  {
    if f != [] {
      TotalZero(f[..|f| - 1]);
    }
  }

  lemma {:induction false} CountConcat(a: seq<nat>, b: seq<nat>, high: bool, k: nat)
    ensures Count(a + b, high, k) == Count(a, high, k) + Count(b, high, k)
  {
    if b == [] {
      assert a + b == a;
    } else {
      CountConcat(a, b[..|b| - 1], high, k);
      assert (a + b)[..|a + b| - 1] == a + b[..|b| - 1];
    }
  }

  lemma {:induction false} CountUpdate(s: seq<nat>, i: nat, v: nat, high: bool, k: nat)
    requires i < |s|
    ensures Count(s[i := v], high, k) + (if Key(high, s[i]) == k then 1 else 0)
      == Count(s, high, k) + (if Key(high, v) == k then 1 else 0)
  {
    var n := |s| - 1;
    if i == n {
      assert s[i := v][..n] == s[..n];
    } else {
      CountUpdate(s[..n], i, v, high, k);
      assert s[i := v][..n] == s[..n][i := v];
    }
  }

  lemma {:induction false} CountAll(s: seq<nat>, high: bool, k: nat)
    requires forall i :: 0 <= i < |s| ==> Key(high, s[i]) == k
    ensures Count(s, high, k) == |s|
  {
    if s != [] {
      CountAll(s[..|s| - 1], high, k);
    }
  }

  lemma {:induction false} CountSome(s: seq<nat>, high: bool, k: nat, i: nat)
    requires i < |s| && Key(high, s[i]) == k
    ensures Count(s, high, k) >= 1
  {
    if i < |s| - 1 {
      CountSome(s[..|s| - 1], high, k, i);
    }
  }

  /** One more than what stands in `[from, to)`. */
  lemma {:induction false} CountBeside(s: seq<nat>, high: bool, k: nat, from: nat, to: nat, p: nat)
    requires from <= to <= |s| && p < |s| && !(from <= p < to)
    requires forall i :: from <= i < to ==> Key(high, s[i]) == k
    requires Key(high, s[p]) == k
    ensures Count(s, high, k) >= to - from + 1
  {
    assert s == s[..from] + s[from..to] + s[to..];
    CountConcat(s[..from], s[from..to], high, k);
    CountConcat(s[..from] + s[from..to], s[to..], high, k);
    CountAll(s[from..to], high, k);
    if p < from {
      CountSome(s[..from], high, k, p);
    } else {
      CountSome(s[to..], high, k, p - to);
    }
  }

  ghost predicate Tallied(f: seq<nat>, s: seq<nat>, high: bool) {
    && |f| == BUCKETS && Total(f) == |s|
    && (forall k :: 0 <= k < BUCKETS ==> f[k] == Count(s, high, k))
  }

  lemma {:induction false} TalliedOne(f: seq<nat>, s: seq<nat>, high: bool, v: nat)
    requires Tallied(f, s, high) && Key(high, v) < BUCKETS
    ensures Tallied(f[Key(high, v) := f[Key(high, v)] + 1], s + [v], high)
  {
    TotalUpdate(f, Key(high, v), f[Key(high, v)] + 1);
    assert (s + [v])[..|s|] == s;
  }

  /** The first loop of both sorting functions. */
  method Tally(a: array<nat>, from: nat, to: nat, high: bool) returns (f: array<nat>)
    requires from <= to <= a.Length && forall i :: from <= i < to ==> Key(high, a[i]) < BUCKETS
    ensures fresh(f) && f.Length == BUCKETS && Tallied(f[..], a[from..to], high)
  {
    f := new nat[BUCKETS](_ => 0);
    TotalZero(f[..]);
    for i := from to to
      invariant fresh(f) && f.Length == BUCKETS && Tallied(f[..], a[from..i], high)
    {
      var k := Key(high, a[i]);
      TalliedOne(f[..], a[from..i], high, a[i]);
      assert a[from..i] + [a[i]] == a[from..i + 1];
      f[k] := f[k] + 1;
    }
  }
}
