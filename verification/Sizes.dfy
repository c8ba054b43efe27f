/** `mpathq::sizev`: sorted vectors that map packet sizes to path counts. */
module Sizes {

  import opened Wrappers

  datatype Entry = Entry(size: nat, count: bv64)

  type Vector = seq<Entry>

  const MAX: bv64 := 0xFFFF_FFFF_FFFF_FFFF

  ghost predicate Sorted(v: Vector) {
    forall i, j :: 0 <= i < j < |v| ==> v[i].size < v[j].size
  }

  /** Every size of `v` is below `s`. */
  ghost predicate Below(v: Vector, s: nat) {
    forall i :: 0 <= i < |v| ==> v[i].size < s
  }

  /** What a vector means: the count it stores for `s`, if any. */
  ghost function Find(v: Vector, s: nat): Option<bv64> {
    if v == [] then None
    else if v[|v| - 1].size == s then Some(v[|v| - 1].count)
    else Find(v[..|v| - 1], s)
  }

  lemma {:induction false} FindBelow(v: Vector, s: nat)
    requires Below(v, s)
    ensures Find(v, s) == None
  {
    if v != [] {
      FindBelow(v[..|v| - 1], s);
    }
  }

  lemma {:induction false} FindAt(v: Vector, i: nat)
    requires Sorted(v) && i < |v|
    ensures Find(v, v[i].size) == Some(v[i].count)
  {
    if i < |v| - 1 {
      FindAt(v[..|v| - 1], i);
    }
  }

  lemma {:induction false} FindIndex(v: Vector, s: nat) returns (i: nat)
    requires Find(v, s).Some?
    ensures i < |v| && v[i] == Entry(s, Find(v, s).value)
  {
    if v[|v| - 1].size == s {
      i := |v| - 1;
    } else {
      i := FindIndex(v[..|v| - 1], s);
    }
  }

  lemma {:induction false} FindAppend(v: Vector, e: Entry, s: nat)
    ensures Find(v + [e], s) == if s == e.size then Some(e.count) else Find(v, s)
  {
    assert (v + [e])[..|v + [e]| - 1] == v;
  }

  // What the operators do with the entries that two vectors have for one size.

  function Either(a: Option<bv64>, b: Option<bv64>): Option<bv64> {
    if a.Some? && b.Some? then Some(a.value | b.value) else if a.Some? then a else b
  }

  function Both(a: Option<bv64>, b: Option<bv64>): Option<bv64> {
    if a.Some? && b.Some? && a.value & b.value != 0 then Some(a.value & b.value) else None
  }

  type Operator = (Option<bv64>, Option<bv64>) -> Option<bv64>

  /** Appends what the operator makes of the entries for size `s`. */
  function Emit(v: Vector, s: nat, c: Option<bv64>): Vector {
    if c.Some? then v + [Entry(s, c.value)] else v
  }

  ghost predicate Combined(a: Vector, b: Vector, op: Operator, v: Vector) {
    forall s: nat {:trigger Find(v, s)} :: Find(v, s) == op(Find(a, s), Find(b, s))
  }

  /** One size that only the first, only the second or both vectors have next. */
  lemma {:induction false} CombineStep(a: Vector, b: Vector, op: Operator, v: Vector, bound: nat, s: nat,
                                       x: Option<bv64>, y: Option<bv64>)
    requires op(None, None) == None && Sorted(v) && Combined(a, b, op, v)
    requires Below(a, bound) && Below(b, bound) && Below(v, bound) && bound <= s
    ensures Combined(Emit(a, s, x), Emit(b, s, y), op, Emit(v, s, op(x, y)))
    ensures Sorted(Emit(v, s, op(x, y)))
    ensures Below(Emit(a, s, x), s + 1) && Below(Emit(b, s, y), s + 1) && Below(Emit(v, s, op(x, y)), s + 1)
  {
    var a', b', v' := Emit(a, s, x), Emit(b, s, y), Emit(v, s, op(x, y));
    forall r: nat ensures Find(v', r) == op(Find(a', r), Find(b', r)) {
      FindBelow(a, s);
      FindBelow(b, s);
      FindBelow(v, s);
      if x.Some? {
        FindAppend(a, Entry(s, x.value), r);
      }
      if y.Some? {
        FindAppend(b, Entry(s, y.value), r);
      }
      if op(x, y).Some? {
        FindAppend(v, Entry(s, op(x, y).value), r);
      }
    }
  }

  ghost predicate Beyond(v: Vector, i: nat, bound: nat) {
    i < |v| ==> v[i].size >= bound
  }

  /** A cursor moves past `s` if it stands there. */
  lemma {:induction false} Advance(v: Vector, i: nat, s: nat, here: bool)
    requires Sorted(v) && i <= |v| && Beyond(v, i, s)
    requires here <==> i < |v| && v[i].size == s
    ensures here ==> v[..i + 1] == Emit(v[..i], s, Some(v[i].count)) && Beyond(v, i + 1, s + 1)
    ensures !here ==> v[..i] == Emit(v[..i], s, None) && Beyond(v, i, s + 1)
  {
  }

  /** The loop over `sizev::intersection` that the operators share: two cursors walk both vectors
  in step and the operator decides what to keep. Its result means the operator, size by size. */
  method Combine(a: Vector, b: Vector, op: Operator) returns (v: Vector)
    requires Sorted(a) && Sorted(b) && op(None, None) == None
    ensures Sorted(v) && Combined(a, b, op, v)
  {
    v := [];
    var i, j := 0, 0;
    ghost var bound: nat := 0;
    while i < |a| || j < |b|
      invariant i <= |a| && j <= |b|
      invariant Sorted(v) && Combined(a[..i], b[..j], op, v)
      invariant Below(a[..i], bound) && Below(b[..j], bound) && Below(v, bound)
      invariant Beyond(a, i, bound) && Beyond(b, j, bound)
      decreases |a| - i + |b| - j
    {
      var left := j == |b| || (i < |a| && a[i].size <= b[j].size);
      var right := i == |a| || (j < |b| && b[j].size <= a[i].size);
      var s := if left then a[i].size else b[j].size;
      var x := if left then Some(a[i].count) else None;
      var y := if right then Some(b[j].count) else None;
      CombineStep(a[..i], b[..j], op, v, bound, s, x, y);
      v := Emit(v, s, op(x, y));
      Advance(a, i, s, left);
      Advance(b, j, s, right);
      bound := s + 1;
      if left {
        i := i + 1;
      }
      if right {
        j := j + 1;
      }
    }
    assert a[..i] == a && b[..j] == b;
  }

  /** `sizev::operator & (std::uint32_t)`: the sizes from `m` on. */
  method From(a: Vector, m: nat) returns (v: Vector)
    requires Sorted(a)
    ensures Sorted(v)
    ensures forall s: nat :: Find(v, s) == if s >= m then Find(a, s) else None
  {
    var i := 0;
    while i < |a| && a[i].size < m
      invariant i <= |a| && Below(a[..i], m)
    {
      i := i + 1;
    }
    v := a[i..];
    forall s: nat ensures Find(v, s) == if s >= m then Find(a, s) else None {
      FromFind(a, i, m, s);
    }
  }

  lemma {:induction false} FromFind(a: Vector, i: nat, m: nat, s: nat)
    requires Sorted(a) && i <= |a| && Below(a[..i], m) && (i < |a| ==> a[i].size >= m)
    ensures Find(a[i..], s) == if s >= m then Find(a, s) else None
  {
    if Find(a[i..], s).Some? {
      var k := FindIndex(a[i..], s);
      FindAt(a, i + k);
    } else if s >= m && Find(a, s).Some? {
      var k := FindIndex(a, s);
      assert forall n :: 0 <= n < i ==> a[..i][n] == a[n];
      FindAt(a[i..], k - i);
    }
  }

  /** `sizev::operator []`. */
  method Lookup(v: Vector, s: nat) returns (c: bv64)
    requires Sorted(v)
    ensures c == if Find(v, s).Some? then Find(v, s).value else 0
  {
    var i := 0;
    while i < |v|
      invariant i <= |v| && Below(v[..i], s)
    {
      if v[i].size == s {
        FindAt(v, i);
        return v[i].count;
      }
      if v[i].size > s {
        Missing(v, i, s);
        return 0;
      }
      i := i + 1;
    }
    Missing(v, i, s);
    return 0;
  }

  lemma {:induction false} Missing(v: Vector, i: nat, s: nat)
    requires Sorted(v) && i <= |v| && Below(v[..i], s) && (i < |v| ==> v[i].size > s)
    ensures Find(v, s) == None
  {
    assert forall n :: 0 <= n < i ==> v[..i][n] == v[n];
    if Find(v, s).Some? {
      var k := FindIndex(v, s);
      assert false;
    }
  }

  // The vectors that `propagate_sizes` works on store the largest count for every size they have.

  /** `v` stores MAX for the sizes in `S` and has no other sizes. */
  ghost predicate Exactly(v: Vector, S: set<nat>) {
    Sorted(v) && forall s: nat {:trigger Find(v, s)} :: Find(v, s) == if s in S then Some(MAX) else None
  }

  ghost function AtLeast(S: set<nat>, m: nat): set<nat> {
    set s | s in S && s >= m
  }

  method Join(a: Vector, b: Vector, ghost A: set<nat>, ghost B: set<nat>) returns (v: Vector)
    requires Exactly(a, A) && Exactly(b, B)
    ensures Exactly(v, A + B)
  {
    v := Combine(a, b, Either);
  }

  method Meet(a: Vector, b: Vector, ghost A: set<nat>, ghost B: set<nat>) returns (v: Vector)
    requires Exactly(a, A) && Exactly(b, B)
    ensures Exactly(v, A * B)
  {
    v := Combine(a, b, Both);
  }

  method Cut(a: Vector, m: nat, ghost A: set<nat>) returns (v: Vector)
    requires Exactly(a, A)
    ensures Exactly(v, AtLeast(A, m))
  {
    v := From(a, m);
  }

  /** The constructor `sizev(std::pair)` with the largest count. */
  function Single(s: nat): (v: Vector)
    ensures Exactly(v, {s})
  {
    assert [Entry(s, MAX)][..0] == [];
    [Entry(s, MAX)]
  }

  ghost predicate Listed(v: Vector, i: nat, s: nat) {
    exists k :: 0 <= k < i && k < |v| && v[k].size == s
  }

  lemma {:induction false} Lists(v: Vector, s: nat)
    requires Sorted(v)
    ensures Find(v, s).Some? <==> Listed(v, |v|, s)
    ensures Listed(v, |v|, s) ==> v[0].size <= s <= v[|v| - 1].size
  {
    if Find(v, s).Some? {
      var k := FindIndex(v, s);
    }
    if Listed(v, |v|, s) {
      var k :| 0 <= k < |v| && v[k].size == s;
      FindAt(v, k);
    }
  }

  /** `mpathq(const sizev&)`: one optional queue for every size between the smallest and the largest.
  `mpathq::push` drops what it gets for a size without a queue; those are the sizes `v` does not have. */
  method Slots(v: Vector) returns (low: nat, high: nat, queues: seq<bool>)
    requires Sorted(v)
    requires forall i :: 0 <= i < |v| ==> v[i].size <= 0xFFFF_FFFF
    ensures low <= high ==> |queues| == high - low + 1
    ensures forall s: nat :: Find(v, s).Some? <==> low <= s <= high && queues[s - low]
  {
    low := if v == [] then 0xFFFF_FFFF else v[0].size;
    high := if v == [] then 0 else v[|v| - 1].size;
    queues := if low <= high then seq(high - low + 1, _ => false) else [];
    for i := 0 to |v|
      invariant low <= high ==> |queues| == high - low + 1
      invariant forall n :: 0 <= n < |queues| ==> (queues[n] <==> Listed(v, i, low + n))
    {
      queues := queues[v[i].size - low := true];
    }
    forall s: nat ensures Find(v, s).Some? <==> low <= s <= high && queues[s - low] {
      Lists(v, s);
      assert low <= s <= high ==> (queues[s - low] <==> Listed(v, |v|, low + (s - low)));
    }
  }
}
