/** `pathq`: a queue of path objects that keeps the number of paths they stand for, saturating. */
module PathQueue {
  import opened PathQueues
  import opened Serving
  import opened Wrappers

  /** `sizet::operator +` and `operator -`. */
  function Plus(a: nat, b: nat): nat { if a > SIZE_MAX || SIZE_MAX - a < b then SIZE_MAX else a + b }

  function Minus(a: nat, b: nat): nat { if a == SIZE_MAX then SIZE_MAX else if a < b then 0 else a - b }

  ghost predicate Solid(q: seq<Item>) {
    forall i :: 0 <= i < |q| ==> 1 <= Size(q[i])
  }

  lemma {:induction false} SolidSum(q: seq<Item>)
    requires Solid(q)
    ensures Sum(q) == 0 <==> q == []
  {
    if q != [] {
      assert Size(q[0]) >= 1;
    }
  }

  lemma {:induction false} SolidPush(merging: bool, a: seq<Item>, b: seq<Item>)
    requires Solid(a) && Solid(b)
    ensures Solid(Push(merging, a, b))
  {
    if a != [] && b != [] {
      var x, y := a[|a| - 1], b[0];
      assert Size(x) >= 1 && Size(y) >= 1;
      assert forall z :: z in Merge(merging, x, y) ==> Size(z) >= 1;
      var r := Push(merging, a, b);
      forall i | 0 <= i < |r| ensures Size(r[i]) >= 1 {
        var n, m := |a| - 1, |Merge(merging, x, y)|;
        assert r[i] == if i < n then a[i] else if i < n + m then Merge(merging, x, y)[i - n] else b[i - n - m + 1];
        if n <= i < n + m {
          assert r[i] in Merge(merging, x, y);
        }
      }
    }
  }

  class Queue {
    var paths: seq<Item>
    var count: nat
    const merging: bool      // `impossible-path-merging`

    /** The cached count is the saturating sum of the members' sizes. */
    ghost predicate Valid() reads this {
      Solid(paths) && count == Count(paths)
    }

    constructor (merging: bool)
      ensures Valid() && paths == [] && this.merging == merging
    {
      this.merging, paths, count := merging, [], 0;
    }

    /** `push(const pathq&)`. */
    method PushCopy(q: Queue)
      requires Valid() && q.Valid()
      modifies this
      ensures Valid() && paths == Push(merging, old(paths), old(q.paths))
    {
      SumPush(merging, paths, q.paths);
      SolidPush(merging, paths, q.paths);
      count := Plus(count, q.count);
      paths := Push(merging, paths, q.paths);
    }

    /** `push(pathq&&)`: an empty queue takes over the other's contents as they are. */
    method PushMove(q: Queue)
      requires Valid() && q.Valid()
      modifies this
      ensures Valid() && paths == Push(merging, old(paths), old(q.paths))
    {
      SolidSum(paths);
      if count == 0 {
        paths, count := q.paths, q.count;
      } else {
        PushCopy(q);
      }
    }

    /** `take`: the count is subtracted from, or computed anew if it had saturated. */
    method Take() returns (p: Option<Item>)
      requires Valid()
      modifies this
      ensures Valid()
      ensures p.None? <==> old(paths) == []
      ensures if p.Some? then old(paths) == [p.value] + paths else paths == []
    {
      if paths == [] {
        return None;
      }
      p := Some(paths[0]);
      assert Solid(paths[1..]);
      count := Minus(count, Size(paths[0]));
      paths := paths[1..];
      if count == SIZE_MAX {
        count := 0;
        for i := 0 to |paths|
          invariant paths == old(paths)[1..] && count == Count(paths[..i])
        {
          SumAppend(paths[..i], [paths[i]]);
          assert paths[..i + 1] == paths[..i] + [paths[i]];
          assert Sum([paths[i]]) == Size(paths[i]);
          count := Plus(count, Size(paths[i]));
        }
        assert paths[..|paths|] == paths;
      }
    }
  }
}
