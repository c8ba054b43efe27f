/** Bit vectors as sequences of bits, the lowest first, and what the numbers in constants mean. */
module BitVectors {

  type Bitseq = seq<bool>

  function Pow(n: nat): (r: nat)
    ensures r > 0
  {
    if n == 0 then 1 else 2 * Pow(n - 1)
  }

  function Bit(b: bool): nat { if b then 1 else 0 }

  /** The low `w` bits of `v`. */
  function ToBits(w: nat, v: nat): (r: Bitseq)
    ensures |r| == w
  {
    if w == 0 then Zeros(w) else [v % 2 == 1] + ToBits(w - 1, v / 2)
  }

  function Value(x: Bitseq): nat {
    if |x| == 0 then 0 else Bit(x[0]) + 2 * Value(x[1..])
  }

  function Zeros(n: nat): (r: Bitseq)
    ensures |r| == n
  {
    seq(n, _ => false)
  }

  function Or(x: Bitseq, y: Bitseq): (r: Bitseq)
    requires |x| == |y|
    ensures |r| == |x|
  {
    seq(|x|, i requires 0 <= i < |x| => x[i] || y[i])
  }

  function And(x: Bitseq, y: Bitseq): (r: Bitseq)
    requires |x| == |y|
    ensures |r| == |x|
  {
    seq(|x|, i requires 0 <= i < |x| => x[i] && y[i])
  }

  /** Addition with carry, bit by bit. */
  function Add(x: Bitseq, y: Bitseq, c: bool): (r: Bitseq)
    requires |x| == |y|
    ensures |r| == |x|
  {
    if |x| == 0 then x
    else
      var n := Bit(x[0]) + Bit(y[0]) + Bit(c);
      [n % 2 == 1] + Add(x[1..], y[1..], n >= 2)
  }

  function Carry(x: Bitseq, y: Bitseq, c: bool): bool
    requires |x| == |y|
  {
    if |x| == 0 then c
    else Carry(x[1..], y[1..], Bit(x[0]) + Bit(y[0]) + Bit(c) >= 2)
  }

  function ShiftL(x: Bitseq, k: nat): (r: Bitseq)
    ensures |r| == |x|
  {
    if k >= |x| then Zeros(|x|) else Zeros(k) + x[..|x| - k]
  }

  function ShiftR(x: Bitseq, k: nat): (r: Bitseq)
    ensures |r| == |x|
  {
    if k >= |x| then Zeros(|x|) else x[k..] + Zeros(k)
  }

  // Numbers.

  lemma {:induction false} ValueBound(x: Bitseq)
    ensures Value(x) < Pow(|x|)
  {
    if |x| > 0 {
      ValueBound(x[1..]);
    }
  }

  /** `v >> k`. */
  function Shifted(v: nat, k: nat): nat {
    if k == 0 then v else Shifted(v / 2, k - 1)
  }

  /** `v << k`. */
  function ShiftedUp(v: nat, k: nat): nat
    decreases k
  {
    if k == 0 then v else ShiftedUp(2 * v, k - 1)
  }

  lemma {:induction false} ShiftedUpIs(v: nat, k: nat)
    ensures ShiftedUp(v, k) == v * Pow(k)
    decreases k
  {
    if k > 0 {
      ShiftedUpIs(2 * v, k - 1);
    }
  }

  /** `v & ((1 << w) - 1)`: the number that the low bits stand for. */
  function Mask(w: nat, v: nat): (r: nat)
    ensures r < Pow(w)
  {
    ValueBound(ToBits(w, v));
    Value(ToBits(w, v))
  }

  lemma {:induction false} MaskSmall(w: nat, v: nat)
    requires v < Pow(w)
    ensures Mask(w, v) == v
  {
    if w > 0 {
      MaskSmall(w - 1, v / 2);
      assert ToBits(w, v)[1..] == ToBits(w - 1, v / 2);
    }
  }

  lemma {:induction false} MaskBits(w: nat, v: nat)
    ensures ToBits(w, Mask(w, v)) == ToBits(w, v)
  {
    ToBitsValue(ToBits(w, v));
  }

  lemma {:induction false} ToBitsValue(x: Bitseq)
    ensures ToBits(|x|, Value(x)) == x
  {
    if |x| > 0 {
      ToBitsValue(x[1..]);
      assert x == [x[0]] + x[1..];
    }
  }

  lemma {:induction false} ValueInjective(x: Bitseq, y: Bitseq)
    requires |x| == |y| && Value(x) == Value(y)
    ensures x == y
  {
    ToBitsValue(x);
    ToBitsValue(y);
  }

  /** `(h << l) + v`. */
  lemma {:induction false} ToBitsJoin(l: nat, w: nat, h: nat, v: nat)
    requires v < Pow(l)
    ensures ToBits(l + w, ShiftedUp(h, l) + v) == ToBits(l, v) + ToBits(w, h)
  {
    if l > 0 {
      ShiftedUpEven(h, l);
      ToBitsJoin(l - 1, w, h, v / 2);
      assert ToBits(l, v) + ToBits(w, h) == [v % 2 == 1] + (ToBits(l - 1, v / 2) + ToBits(w, h));
    }
  }

  lemma {:induction false} ShiftedUpEven(v: nat, k: nat)
    requires k > 0
    ensures ShiftedUp(v, k) == 2 * ShiftedUp(v, k - 1)
    decreases k
  {
    if k > 1 {
      ShiftedUpEven(2 * v, k - 1);
    }
  }

  lemma {:induction false} ToBitsShift(w: nat, v: nat, k: nat, n: nat)
    requires k + n <= w
    ensures ToBits(n, Shifted(v, k)) == ToBits(w, v)[k..k + n]
  {
    if k == 0 {
      ToBitsPrefix(w, v, n);
    } else {
      ToBitsShift(w - 1, v / 2, k - 1, n);
      assert ToBits(w, v)[k..k + n] == ToBits(w, v)[1..][k - 1..k - 1 + n];
    }
  }

  lemma {:induction false} ToBitsPrefix(w: nat, v: nat, n: nat)
    requires n <= w
    ensures ToBits(n, v) == ToBits(w, v)[..n]
  {
    if n > 0 {
      ToBitsPrefix(w - 1, v / 2, n - 1);
    }
  }

  lemma {:induction false} ValueConcat(x: Bitseq, y: Bitseq)
    ensures Value(x + y) == Value(x) + Pow(|x|) * Value(y)
  {
    if |x| == 0 {
      assert x + y == y;
    } else {
      ValueConcat(x[1..], y);
      assert (x + y)[1..] == x[1..] + y;
      assert Pow(|x|) * Value(y) == 2 * (Pow(|x| - 1) * Value(y));
    }
  }

  /** Bitwise addition is addition of numbers, the carry being what does not fit. */
  lemma {:induction false} AddValue(x: Bitseq, y: Bitseq, c: bool)
    requires |x| == |y|
    ensures Value(Add(x, y, c)) + (if Carry(x, y, c) then Pow(|x|) else 0) == Value(x) + Value(y) + Bit(c)
  {
    if |x| > 0 {
      var n := Bit(x[0]) + Bit(y[0]) + Bit(c);
      AddValue(x[1..], y[1..], n >= 2);
      AddStep(x, y, c);
      ValueStep(n % 2 == 1, Add(x[1..], y[1..], n >= 2));
      CarryOn(x[0], y[0], c, Value(x[1..]), Value(y[1..]), Value(Add(x[1..], y[1..], n >= 2)), Pow(|x| - 1),
              Carry(x[1..], y[1..], n >= 2));
    }
  }

  /** The sum of the first bits and that of the others. */
  lemma {:induction false} CarryOn(a: bool, b: bool, c: bool, v: nat, w: nat, s: nat, p: nat, over: bool)
    requires s + (if over then p else 0) == v + w + Bit(Bit(a) + Bit(b) + Bit(c) >= 2)
    ensures Bit((Bit(a) + Bit(b) + Bit(c)) % 2 == 1) + 2 * s + (if over then 2 * p else 0)
         == (Bit(a) + 2 * v) + (Bit(b) + 2 * w) + Bit(c)
  {
  }

  lemma {:induction false} ValueStep(b: bool, x: Bitseq)
    ensures Value([b] + x) == Bit(b) + 2 * Value(x)
  {
    assert ([b] + x)[1..] == x;
  }

  lemma {:induction false} AddConcat(x: Bitseq, x': Bitseq, y: Bitseq, y': Bitseq, c: bool)
    requires |x| == |y| && |x'| == |y'|
    ensures Add(x + x', y + y', c) == Add(x, y, c) + Add(x', y', Carry(x, y, c))
  {
    if |x| == 0 {
      assert x + x' == x' && y + y' == y';
    } else {
      var n := Bit(x[0]) + Bit(y[0]) + Bit(c);
      AddConcat(x[1..], x', y[1..], y', n >= 2);
      Tails(x, x');
      Tails(y, y');
      AddStep(x, y, c);
      AddStep(x + x', y + y', c);
      Prepend(n % 2 == 1, Add(x[1..], y[1..], n >= 2), Add(x', y', Carry(x, y, c)));
    }
  }

  lemma {:induction false} AddStep(x: Bitseq, y: Bitseq, c: bool)
    requires |x| == |y| && |x| > 0
    ensures var n := Bit(x[0]) + Bit(y[0]) + Bit(c);
      Add(x, y, c) == [n % 2 == 1] + Add(x[1..], y[1..], n >= 2) && Carry(x, y, c) == Carry(x[1..], y[1..], n >= 2)
  {
  }

  lemma {:induction false} Tails(x: Bitseq, x': Bitseq)
    requires |x| > 0
    ensures (x + x')[0] == x[0] && (x + x')[1..] == x[1..] + x'
  {
  }

  lemma {:induction false} Prepend(b: bool, x: Bitseq, y: Bitseq)
    ensures [b] + (x + y) == [b] + x + y
  {
  }

  lemma {:induction false} AddZeros(y: Bitseq)
    ensures Add(Zeros(|y|), y, false) == y && Add(y, Zeros(|y|), false) == y
    ensures !Carry(Zeros(|y|), y, false)
  {
    if |y| > 0 {
      AddZeros(y[1..]);
      assert Zeros(|y|)[1..] == Zeros(|y| - 1);
      assert y == [y[0]] + y[1..];
    }
  }

  lemma {:induction false} AddCommutes(x: Bitseq, y: Bitseq, c: bool)
    requires |x| == |y|
    ensures Add(x, y, c) == Add(y, x, c)
  {
    if |x| > 0 {
      AddCommutes(x[1..], y[1..], Bit(x[0]) + Bit(y[0]) + Bit(c) >= 2);
    }
  }

  /** Constants are added as numbers. */
  lemma {:induction false} AddConstants(w: nat, a: nat, b: nat)
    ensures Add(ToBits(w, a), ToBits(w, b), false) == ToBits(w, a + b)
  {
    AddToBits(w, a, b, false);
  }

  lemma {:induction false} AddToBits(w: nat, a: nat, b: nat, c: bool)
    ensures Add(ToBits(w, a), ToBits(w, b), c) == ToBits(w, a + b + Bit(c))
  {
    if w > 0 {
      var n := a % 2 + b % 2 + Bit(c);
      AddToBits(w - 1, a / 2, b / 2, n >= 2);
      assert (a + b + Bit(c)) / 2 == a / 2 + b / 2 + Bit(n >= 2);
    }
  }

  lemma {:induction false} ToBitsZero(w: nat)
    ensures ToBits(w, 0) == Zeros(w)
  {
    if w > 0 {
      ToBitsZero(w - 1);
    }
  }

  lemma {:induction false} Scale(p: nat, a: nat, b: nat)
    requires a < b
    ensures p * a + p <= p * b
  {
    assert p * (a + 1) <= p * b;
  }

  /** Two concatenations compare as their high parts if these differ. */
  lemma {:induction false} CompareHigh(x: Bitseq, x': Bitseq, y: Bitseq, y': Bitseq)
    requires |x| == |y| && Value(x') < Value(y')
    ensures Value(x + x') < Value(y + y')
  {
    ValueConcat(x, x');
    ValueConcat(y, y');
    ValueBound(x);
    ValueBound(y);
    Lexicographic(Pow(|x|), Value(x'), Value(y'), Value(x), Value(y));
  }

  /** And as their low parts if the high parts are the same. */
  lemma {:induction false} CompareLow(x: Bitseq, y: Bitseq, z: Bitseq)
    requires |x| == |y|
    ensures Value(x + z) < Value(y + z) <==> Value(x) < Value(y)
  {
    ValueConcat(x, z);
    ValueConcat(y, z);
  }

  lemma {:induction false} Lexicographic(p: nat, a: nat, b: nat, l: nat, l': nat)
    requires l < p && l' < p
    ensures a < b ==> l + p * a < l' + p * b
    ensures a == b ==> (l + p * a < l' + p * b <==> l < l')
  {
    if a < b {
      Scale(p, a, b);
    }
  }
}
