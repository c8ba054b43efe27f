/** The constructors for or, shifts, addition, and comparisons, and what they denote. */
module Operators {
  import opened BitVectors
  import opened Expressions
  import opened Simplify

  /** `expr::extend`: zeros in front. */
  function Extend(n: nat, e: Term): (r: Term)
    requires 1 <= n <= 64
    ensures Width(r) == n + Width(e)
  {
    Concat(Const(n, 0), e)
  }

  lemma {:induction false} ZeroMeans(env: Env, n: nat)
    requires 1 <= n <= 64
    ensures Eval(env, Const(n, 0)) == Zeros(n)
  {
    ConstMeans(env, n, 0);
    ToBitsZero(n);
  }

  lemma {:induction false} ExtendMeans(env: Env, n: nat, e: Term)
    requires 1 <= n <= 64
    ensures Eval(env, Extend(n, e)) == Eval(env, e) + Zeros(n)
  {
    ConcatMeans(env, Const(n, 0), e);
    ZeroMeans(env, n);
  }

  /** Zeros behind. */
  lemma {:induction false} TailMeans(env: Env, e: Term, k: nat)
    requires 1 <= k <= 64
    ensures Eval(env, Concat(e, Const(k, 0))) == Zeros(k) + Eval(env, e)
  {
    ZeroMeans(env, k);
    ConcatMeans(env, e, Const(k, 0));
  }

  lemma {:induction false} ConstantValue(env: Env, e: Term)
    requires e.Constant?
    ensures Value(Eval(env, e)) == e.value
  {
    MaskSmall(e.width, e.value);
  }

  lemma {:induction false} ExtendedMeans(env: Env, n: nat, e: Term, x: Bitseq)
    requires 1 <= n <= 64 && Eval(env, e) == x
    ensures Eval(env, Extend(n, e)) == x + Zeros(n)
  {
    ExtendMeans(env, n, e);
  }

  predicate IsZero(e: Term) { e.Constant? && e.value == 0 }

  lemma {:induction false} IsZeroMeans(env: Env, e: Term)
    requires IsZero(e)
    ensures Eval(env, e) == Zeros(Width(e))
  {
    ToBitsZero(Width(e));
  }

  /** The constant with the given bits. */
  function FromBits(x: Bitseq): (r: Term)
    requires 1 <= |x| <= 64
    ensures Width(r) == |x|
  {
    Const(|x|, Value(x))
  }

  lemma {:induction false} FromBitsMeans(env: Env, x: Bitseq)
    requires 1 <= |x| <= 64
    ensures Eval(env, FromBits(x)) == x
  {
    ConstMeans(env, |x|, Value(x));
    ToBitsValue(x);
  }

  // Or.

  predicate Split(a: Term) { a.Concatenation? && Piece(Width(a.a)) }

  /** `expr::bvor`. */
  function BvOr(a: Term, b: Term): (r: Term)
    requires Width(a) == Width(b)
    ensures Width(r) == Width(a)
    decreases Width(a), 2
  {
    if a.Constant? && b.Constant? then FromBits(Or(ToBits(a.width, a.value), ToBits(b.width, b.value)))
    else if IsZero(a) then b
    else if IsZero(b) then a
    else if Split(a) && Split(b) then
      if Width(a.a) == Width(b.a) then OrEven(a, b)
      else if Width(a.a) > Width(b.a) then OrUneven(a, b)
      else OrUnevenRight(a, b)
    else Binary(Oring, a, b)
  }

  function OrEven(a: Term, b: Term): (r: Term)
    requires Width(a) == Width(b) && Split(a) && Split(b) && Width(a.a) == Width(b.a)
    ensures Width(r) == Width(a)
    decreases Width(a), 0
  {
    WidthPositive(a.b);
    Concat(BvOr(a.a, b.a), BvOr(a.b, b.b))
  }

  /** The pieces of a longer high part and of the low part beside it, `k` bits of them being the same. */
  function Upper(a: Term, k: nat): (r: Term)
    requires Split(a) && 0 < k < Width(a.a)
    ensures Width(r) == Width(a.a) - k
  {
    Extract(Width(a.a) - 1, k, a.a)
  }

  function Middle(a: Term, k: nat): (r: Term)
    requires Split(a) && 0 < k < Width(a.a)
    ensures Width(r) == k
  {
    Extract(k - 1, 0, a.a)
  }

  function Beside(b: Term, k: nat): (r: Term)
    requires Split(b) && 0 < k < Width(b.b)
    ensures Width(r) == k
  {
    Extract(Width(b.b) - 1, Width(b.b) - k, b.b)
  }

  function Lower(b: Term, k: nat): (r: Term)
    requires Split(b) && 0 < k < Width(b.b)
    ensures Width(r) == Width(b.b) - k
  {
    Extract(Width(b.b) - k - 1, 0, b.b)
  }

  function OrPieces(h: Term, h': Term, m: Term, m': Term, l: Term, l': Term): (r: Term)
    requires Width(h) == Width(h') && Width(m) == Width(m') && Width(l) == Width(l')
    ensures Width(r) == Width(h) + Width(m) + Width(l)
    decreases Width(h) + Width(m) + Width(l), 0
  {
    WidthPositive(h);
    WidthPositive(m);
    WidthPositive(l);
    Concat(BvOr(h, h'), Concat(BvOr(m, m'), BvOr(l, l')))
  }

  /** The high part of `a` is longer: three pieces. */
  function OrUneven(a: Term, b: Term): (r: Term)
    requires Width(a) == Width(b) && Split(a) && Split(b) && Width(a.a) > Width(b.a)
    ensures Width(r) == Width(a)
    decreases Width(a), 1
  {
    WidthPositive(a.b);
    WidthPositive(b.a);
    var k := Width(a.a) - Width(b.a);
    OrPieces(Upper(a, k), b.a, Middle(a, k), Beside(b, k), a.b, Lower(b, k))
  }

  function OrUnevenRight(a: Term, b: Term): (r: Term)
    requires Width(a) == Width(b) && Split(a) && Split(b) && Width(a.a) < Width(b.a)
    ensures Width(r) == Width(a)
    decreases Width(a), 1
  {
    WidthPositive(b.b);
    WidthPositive(a.a);
    var k := Width(b.a) - Width(a.a);
    OrPieces(a.a, Upper(b, k), Beside(a, k), Middle(b, k), Lower(a, k), b.b)
  }

  lemma {:induction false} OrConcat(x: Bitseq, x': Bitseq, y: Bitseq, y': Bitseq)
    requires |x| == |y| && |x'| == |y'|
    ensures Or(x + x', y + y') == Or(x, y) + Or(x', y')
  {
  }

  lemma {:induction false} OrZero(x: Bitseq)
    ensures Or(x, Zeros(|x|)) == x && Or(Zeros(|x|), x) == x
  {
  }

  /** Splitting at three places. */
  lemma {:induction false} OrThree(low: Bitseq, x: Bitseq, low': Bitseq, y: Bitseq)
    requires |low| + |x| == |low'| + |y| && |low| <= |low'|
    ensures var k := |low'| - |low|;
      Or(low + x, low' + y)
        == Or(low, low'[0..|low|]) + Or(x[0..k], low'[|low|..|low'|]) + Or(x[k..|x|], y)
  {
  }

  /** `bvor` denotes the bitwise or. */
  lemma {:induction false} BvOrMeans(env: Env, a: Term, b: Term)
    requires Width(a) == Width(b)
    ensures Eval(env, BvOr(a, b)) == Or(Eval(env, a), Eval(env, b))
    decreases Width(a), 2
  {
    if a.Constant? && b.Constant? {
      FromBitsMeans(env, Or(ToBits(a.width, a.value), ToBits(b.width, b.value)));
    } else if IsZero(a) {
      IsZeroMeans(env, a);
      OrZero(Eval(env, b));
    } else if IsZero(b) {
      IsZeroMeans(env, b);
      OrZero(Eval(env, a));
    } else if Split(a) && Split(b) {
      BvOrIs(a, b);
      if Width(a.a) == Width(b.a) {
        OrEvenMeans(env, a, b);
      } else if Width(a.a) > Width(b.a) {
        OrUnevenMeans(env, a, b);
      } else {
        OrUnevenRightMeans(env, a, b);
      }
    }
  }

  lemma {:induction false} BvOrIs(a: Term, b: Term)
    requires Width(a) == Width(b) && Split(a) && Split(b)
    ensures Width(a.a) == Width(b.a) ==> BvOr(a, b) == OrEven(a, b)
    ensures Width(a.a) > Width(b.a) ==> BvOr(a, b) == OrUneven(a, b)
    ensures Width(a.a) < Width(b.a) ==> BvOr(a, b) == OrUnevenRight(a, b)
  {
  }

  lemma {:induction false} OrEvenMeans(env: Env, a: Term, b: Term)
    requires Width(a) == Width(b) && Split(a) && Split(b) && Width(a.a) == Width(b.a)
    ensures Eval(env, OrEven(a, b)) == Or(Eval(env, a), Eval(env, b))
    decreases Width(a), 0
  {
    WidthPositive(a.b);
    BvOrMeans(env, a.a, b.a);
    BvOrMeans(env, a.b, b.b);
    ConcatMeans(env, BvOr(a.a, b.a), BvOr(a.b, b.b));
    OrConcat(Eval(env, a.b), Eval(env, a.a), Eval(env, b.b), Eval(env, b.a));
  }

  /** Three pieces put together. */
  lemma {:induction false} ThreeMeans(env: Env, h: Term, m: Term, l: Term)
    ensures Eval(env, Concat(h, Concat(m, l))) == Eval(env, l) + Eval(env, m) + Eval(env, h)
  {
    ConcatMeans(env, m, l);
    ConcatMeans(env, h, Concat(m, l));
  }

  lemma {:induction false} PiecesMeans(env: Env, a: Term, k: nat)
    requires Split(a) && 0 < k < Width(a.a)
    ensures Eval(env, Middle(a, k)) == Eval(env, a.a)[0..k]
    ensures Eval(env, Upper(a, k)) == Eval(env, a.a)[k..Width(a.a)]
  {
    ExtractMeans(env, Width(a.a) - 1, k, a.a);
    ExtractMeans(env, k - 1, 0, a.a);
  }

  lemma {:induction false} BesideMeans(env: Env, b: Term, k: nat)
    requires Split(b) && 0 < k < Width(b.b)
    ensures Eval(env, Beside(b, k)) == Eval(env, b.b)[Width(b.b) - k..Width(b.b)]
    ensures Eval(env, Lower(b, k)) == Eval(env, b.b)[0..Width(b.b) - k]
  {
    NextMeans(env, b, k);
    ExtractMeans(env, Width(b.b) - k - 1, 0, b.b);
  }

  lemma {:induction false} NextMeans(env: Env, b: Term, k: nat)
    requires Split(b) && 0 < k < Width(b.b)
    ensures Eval(env, Beside(b, k)) == Eval(env, b.b)[Width(b.b) - k..Width(b.b)]
  {
    ExtractMeans(env, Width(b.b) - 1, Width(b.b) - k, b.b);
  }

  lemma {:induction false} OrPiecesMeans(env: Env, h: Term, h': Term, m: Term, m': Term, l: Term, l': Term)
    requires Width(h) == Width(h') && Width(m) == Width(m') && Width(l) == Width(l')
    ensures Eval(env, OrPieces(h, h', m, m', l, l'))
      == Or(Eval(env, l), Eval(env, l')) + Or(Eval(env, m), Eval(env, m')) + Or(Eval(env, h), Eval(env, h'))
    decreases Width(h) + Width(m) + Width(l), 0
  {
    WidthPositive(h);
    WidthPositive(m);
    WidthPositive(l);
    BvOrMeans(env, h, h');
    BvOrMeans(env, m, m');
    BvOrMeans(env, l, l');
    ThreeMeans(env, BvOr(h, h'), BvOr(m, m'), BvOr(l, l'));
  }

  lemma {:induction false} OrUnevenMeans(env: Env, a: Term, b: Term)
    requires Width(a) == Width(b) && Split(a) && Split(b) && Width(a.a) > Width(b.a)
    ensures Eval(env, OrUneven(a, b)) == Or(Eval(env, a), Eval(env, b))
    decreases Width(a), 1
  {
    WidthPositive(a.b);
    WidthPositive(b.a);
    var k := Width(a.a) - Width(b.a);
    OrPiecesMeans(env, Upper(a, k), b.a, Middle(a, k), Beside(b, k), a.b, Lower(b, k));
    UnevenBits(env, a, b, k);
  }

  lemma {:induction false} UnevenBits(env: Env, a: Term, b: Term, k: nat)
    requires Width(a) == Width(b) && Split(a) && Split(b) && 0 < k == Width(a.a) - Width(b.a)
    requires k < Width(a.a) && k < Width(b.b)
    ensures Or(Eval(env, a.b), Eval(env, Lower(b, k))) + Or(Eval(env, Middle(a, k)), Eval(env, Beside(b, k)))
      + Or(Eval(env, Upper(a, k)), Eval(env, b.a)) == Or(Eval(env, a), Eval(env, b))
  {
    PiecesMeans(env, a, k);
    BesideMeans(env, b, k);
    OrThree(Eval(env, a.b), Eval(env, a.a), Eval(env, b.b), Eval(env, b.a));
  }

  lemma {:induction false} OrUnevenRightMeans(env: Env, a: Term, b: Term)
    requires Width(a) == Width(b) && Split(a) && Split(b) && Width(a.a) < Width(b.a)
    ensures Eval(env, OrUnevenRight(a, b)) == Or(Eval(env, a), Eval(env, b))
    decreases Width(a), 1
  {
    WidthPositive(b.b);
    WidthPositive(a.a);
    var k := Width(b.a) - Width(a.a);
    OrPiecesMeans(env, a.a, Upper(b, k), Beside(a, k), Middle(b, k), Lower(a, k), b.b);
    UnevenRightBits(env, a, b, k);
  }

  lemma {:induction false} UnevenRightBits(env: Env, a: Term, b: Term, k: nat)
    requires Width(a) == Width(b) && Split(a) && Split(b) && 0 < k == Width(b.a) - Width(a.a)
    requires k < Width(b.a) && k < Width(a.b)
    ensures Or(Eval(env, Lower(a, k)), Eval(env, b.b)) + Or(Eval(env, Beside(a, k)), Eval(env, Middle(b, k)))
      + Or(Eval(env, a.a), Eval(env, Upper(b, k))) == Or(Eval(env, a), Eval(env, b))
  {
    PiecesMeans(env, b, k);
    BesideMeans(env, a, k);
    OrThreeRight(Eval(env, a.b), Eval(env, a.a), Eval(env, b.b), Eval(env, b.a));
  }

  lemma {:induction false} OrThreeRight(low: Bitseq, x: Bitseq, low': Bitseq, y: Bitseq)
    requires |low| + |x| == |low'| + |y| && |low'| <= |low|
    ensures var k := |low| - |low'|;
      Or(low + x, low' + y)
        == Or(low[0..|low'|], low') + Or(low[|low'|..|low|], y[0..k]) + Or(x, y[k..|y|])
  {
  }
}
