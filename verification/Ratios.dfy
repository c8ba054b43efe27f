/** `path::cycleratio` and `tratio`: cycles per byte, compared without dividing. */
module Ratios {
  import opened Streams

  const WORD: nat := 0x1_0000_0000
  const LONG: nat := 0x1_0000_0000_0000_0000

  datatype Ratio = Ratio(cycles: nat, size: nat)

  const LOWEST := Ratio(0, WORD - 1)
  const HIGHEST := Ratio(WORD - 1, 0)

  /** Both parts are 32 bits wide and not both zero. */
  predicate Fits(r: Ratio) {
    r.cycles < WORD && r.size < WORD && (r.size > 0 || r.cycles > 0)
  }

  /** The quotient a ratio stands for. */
  function Worth(r: Ratio): Value {
    if r.size == 0 then PosInf else Finite(r.cycles as real / r.size as real)
  }

  /** `cycleratio::operator <`, which multiplies crosswise in 64 bits. */
  predicate Less(a: Ratio, b: Ratio) {
    a.cycles * b.size % LONG < b.cycles * a.size % LONG
  }

  lemma {:induction false} ProductBounded(x: nat, y: nat, m: nat)
    requires x <= m && y <= m
    ensures 0 <= x * y <= m * m
  {
    assert x * y <= m * y <= m * m;
  }

  lemma {:induction false} Unwrapped(x: nat, m: nat)
    requires x < m
    ensures x % m == x
  {
  }

  lemma {:induction false} NoOverflow(x: nat, y: nat)
    requires x < WORD && y < WORD
    ensures x * y % LONG == x * y
  {
    ProductBounded(x, y, WORD - 1);
    Unwrapped(x * y, LONG);
  }

  lemma {:induction false} CrossMultiply(a: nat, b: nat, c: nat, d: nat)
    requires b > 0 && d > 0
    ensures a * d < c * b <==> a as real / b as real < c as real / d as real
  {
    var p, q := a as real / b as real, c as real / d as real;
    assert p * b as real == a as real && q * d as real == c as real;
    var bd := b as real * d as real;
    assert bd > 0.0;
    assert p * bd == a as real * d as real == (a * d) as real;
    assert q * bd == c as real * b as real == (c * b) as real;
    if p < q {
      assert (q - p) * bd > 0.0;
    }
    if q <= p {
      assert (p - q) * bd >= 0.0;
    }
  }

  /** Multiplying crosswise decides the order of the quotients, the largest ratio included. */
  lemma {:induction false} LessExact(a: Ratio, b: Ratio)
    requires Fits(a) && Fits(b)
    ensures Less(a, b) <==> !AtMost(Worth(b), Worth(a))
  {
    NoOverflow(a.cycles, b.size);
    NoOverflow(b.cycles, a.size);
    if a.size > 0 && b.size > 0 {
      CrossMultiply(a.cycles, a.size, b.cycles, b.size);
    } else if a.size > 0 {
      assert b.cycles * a.size > 0;
    }
  }

  method Compare(a: Ratio, b: Ratio) returns (less: bool)
    requires Fits(a) && Fits(b)
    ensures less <==> !AtMost(Worth(b), Worth(a))
  {
    LessExact(a, b);
    less := Less(a, b);
  }

  /** More cycles or fewer bytes are worth no less. */
  lemma {:induction false} WorthMonotone(c: nat, s: nat, c': nat, s': nat)
    requires c <= c' && 0 < s' <= s
    ensures AtMost(Worth(Ratio(c, s)), Worth(Ratio(c', s')))
  {
    assert c' * s < c * s' <==> c' as real / s' as real < c as real / s as real by {
      CrossMultiply(c', s', c, s);
    }
    assert c * s' <= c' * s' <= c' * s;
  }
}
