/** The constructors for shifts, addition and comparisons, and what they denote. */
module Arithmetic {
  import opened BitVectors
  import opened Expressions
  import opened Simplify
  import opened Operators

  // Shifts.

  /** C leaves a shift by 64 or more undefined. */
  predicate Shiftable(a: Term, b: Term) { a.Constant? && b.Constant? ==> b.value < 64 }

  predicate ByPiece(b: Term) { b.Constant? && Piece(b.value) }

  /** `expr::bvshl`. */
  function BvShl(a: Term, b: Term): (r: Term)
    requires Width(a) == Width(b) && Shiftable(a, b)
    ensures Width(r) == Width(a)
  {
    if a.Constant? && b.Constant? then Const(a.width, ShiftedUp(a.value, b.value))
    else if ByPiece(b) && b.value < Width(a) then ShlPiece(a, b.value)
    else Binary(ShiftingL, a, b)
  }

  function ShlPiece(a: Term, k: nat): (r: Term)
    requires Piece(k) && k < Width(a)
    ensures Width(r) == Width(a)
  {
    if a.Concatenation? && Width(a.a) == k then Concat(a.b, Const(k, 0))
    else Concat(Extract(Width(a) - k - 1, 0, a), Const(k, 0))
  }

  lemma {:induction false} ShlPieceMeans(env: Env, a: Term, k: nat)
    requires Piece(k) && k < Width(a)
    ensures Eval(env, ShlPiece(a, k)) == ShiftL(Eval(env, a), k)
  {
    ShlPieceIs(a, k);
    if a.Concatenation? && Width(a.a) == k {
      ShlConcatMeans(env, a, k);
    } else {
      ShlExtractMeans(env, a, k);
    }
  }

  lemma {:induction false} ShlPieceIs(a: Term, k: nat)
    requires Piece(k) && k < Width(a)
    ensures ShlPiece(a, k) == if a.Concatenation? && Width(a.a) == k then Concat(a.b, Const(k, 0))
      else Concat(Extract(Width(a) - k - 1, 0, a), Const(k, 0))
  {
  }

  lemma {:induction false} ShlConcatMeans(env: Env, a: Term, k: nat)
    requires Piece(k) && a.Concatenation? && Width(a.a) == k
    ensures Eval(env, Concat(a.b, Const(k, 0))) == ShiftL(Eval(env, a), k)
  {
    WidthPositive(a.b);
    ShiftConcat(Eval(env, a.b), Eval(env, a.a));
    TailMeans(env, a.b, k);
  }

  lemma {:induction false} CutLeft(x: Bitseq, k: nat)
    requires k < |x|
    ensures ShiftL(x, k) == Zeros(k) + x[0..|x| - k - 1 + 1]
  {
  }

  lemma {:induction false} CutRight(x: Bitseq, k: nat)
    requires k < |x|
    ensures ShiftR(x, k) == x[k..|x| - 1 + 1] + Zeros(k)
  {
  }

  lemma {:induction false} ShiftConcat(low: Bitseq, high: Bitseq)
    requires |low| > 0
    ensures ShiftL(low + high, |high|) == Zeros(|high|) + low
  {
    assert (low + high)[..|low|] == low;
  }

  lemma {:induction false} ShlExtractMeans(env: Env, a: Term, k: nat)
    requires Piece(k) && k < Width(a)
    ensures Eval(env, Concat(Extract(Width(a) - k - 1, 0, a), Const(k, 0))) == ShiftL(Eval(env, a), k)
  {
    ExtractMeans(env, Width(a) - k - 1, 0, a);
    CutMeans(env, a, k, Extract(Width(a) - k - 1, 0, a));
  }

  lemma {:induction false} CutMeans(env: Env, a: Term, k: nat, e: Term)
    requires Piece(k) && k < Width(a) && Eval(env, e) == Eval(env, a)[0..Width(a) - k - 1 + 1]
    ensures Eval(env, Concat(e, Const(k, 0))) == ShiftL(Eval(env, a), k)
  {
    TailMeans(env, e, k);
    CutLeft(Eval(env, a), k);
  }

  lemma {:induction false} ShiftedUpBits(w: nat, v: nat, k: nat)
    ensures ToBits(w, ShiftedUp(v, k)) == ShiftL(ToBits(w, v), k)
    decreases k
  {
    if k == 0 {
      ShiftLNothing(ToBits(w, v));
    } else if w > 0 {
      ShiftedUpEven(v, k);
      DoubleBits(w, ShiftedUp(v, k - 1));
      ShiftedUpBits(w - 1, v, k - 1);
      ToBitsPrefix(w, v, w - 1);
      ShiftLStep(ToBits(w, v), k);
    }
  }

  lemma {:induction false} ShiftLNothing(x: Bitseq)
    ensures ShiftL(x, 0) == x
  {
  }

  lemma {:induction false} DoubleBits(w: nat, v: nat)
    requires w > 0
    ensures ToBits(w, 2 * v) == [false] + ToBits(w - 1, v)
  {
  }

  lemma {:induction false} ShiftLStep(x: Bitseq, k: nat)
    requires |x| > 0 && k > 0
    ensures [false] + ShiftL(x[..|x| - 1], k - 1) == ShiftL(x, k)
  {
  }

  /** `bvshl` denotes the left shift. */
  lemma {:induction false} BvShlMeans(env: Env, a: Term, b: Term)
    requires Width(a) == Width(b) && Shiftable(a, b)
    ensures Eval(env, BvShl(a, b)) == ShiftL(Eval(env, a), Value(Eval(env, b)))
  {
    if b.Constant? {
      ConstantValue(env, b);
      if a.Constant? {
        ConstMeans(env, a.width, ShiftedUp(a.value, b.value));
        ShiftedUpBits(a.width, a.value, b.value);
      } else if ByPiece(b) && b.value < Width(a) {
        ShlPieceMeans(env, a, b.value);
      }
    }
  }

  /** `expr::bvlshr`. */
  function BvLshr(a: Term, b: Term): (r: Term)
    requires Width(a) == Width(b) && Shiftable(a, b)
    ensures Width(r) == Width(a)
    decreases Width(a), 1
  {
    if a.Constant? && b.Constant? then Const(a.width, Shifted(a.value, b.value))
    else if ByPiece(b) && b.value < Width(a) && Width(a) <= 64 then LshrPiece(a, b.value)
    else Binary(ShiftingR, a, b)
  }

  function LshrPiece(a: Term, k: nat): (r: Term)
    requires Piece(k) && k < Width(a) <= 64
    ensures Width(r) == Width(a)
    decreases Width(a), 0
  {
    if a.Concatenation? && Width(a.a) == 8 && Width(a.b) == k then Extend(k, a.a)
    else if a.Concatenation? && Width(a.a) == 8 && Width(a.b) > k then LshrInside(a, k)
    else Extend(k, Extract(Width(a) - 1, k, a))
  }

  /** The low part is shifted by itself. */
  function LshrInside(a: Term, k: nat): (r: Term)
    requires Piece(k) && a.Concatenation? && Width(a.a) == 8 && k < Width(a.b) && Width(a) <= 64
    ensures Width(r) == Width(a)
    decreases Width(a), -1
  {
    PieceFits(Width(a.b), k);
    Extend(k, Concat(a.a, Extract(Width(a.b) - k - 1, 0, BvLshr(a.b, Const(Width(a.b), k)))))
  }

  lemma {:induction false} PieceFits(w: nat, k: nat)
    requires k <= w
    ensures k < Pow(w) && Mask(w, k) == k
  {
    PowAbove(w);
    MaskSmall(w, k);
  }

  lemma {:induction false} PowAbove(w: nat)
    ensures w < Pow(w)
  {
    if w > 0 {
      PowAbove(w - 1);
    }
  }

  lemma {:induction false} ShiftedBits(w: nat, v: nat, k: nat)
    requires v < Pow(w)
    ensures ToBits(w, Shifted(v, k)) == ShiftR(ToBits(w, v), k)
  {
    if k >= w {
      ToBitsZero(w);
      ShiftedAway(w, v, k);
    } else {
      ShiftedInside(w, v, k);
    }
  }

  lemma {:induction false} ShiftedInside(w: nat, v: nat, k: nat)
    requires v < Pow(w) && k < w
    ensures ToBits(w, Shifted(v, k)) == ToBits(w, v)[k..] + Zeros(k)
  {
    ToBitsShift(w, v, k, w - k);
    ShiftedSmall(w, v, k);
    ZerosBehind(w - k, k, Shifted(v, k));
    assert ToBits(w, v)[k..k + (w - k)] == ToBits(w, v)[k..];
  }

  lemma {:induction false} ShiftedAway(w: nat, v: nat, k: nat)
    requires v < Pow(w) && k >= w
    ensures Shifted(v, k) == 0
  {
    if k > 0 {
      if w == 0 {
        ShiftedAway(0, v / 2, k - 1);
      } else {
        ShiftedAway(w - 1, v / 2, k - 1);
      }
    }
  }

  lemma {:induction false} ShiftedSmall(w: nat, v: nat, k: nat)
    requires v < Pow(w) && k <= w
    ensures Shifted(v, k) < Pow(w - k)
  {
    if k > 0 {
      ShiftedSmall(w - 1, v / 2, k - 1);
    }
  }

  lemma {:induction false} ZerosBehind(n: nat, k: nat, v: nat)
    requires v < Pow(n)
    ensures ToBits(n + k, v) == ToBits(n, v) + Zeros(k)
  {
    if n == 0 {
      ToBitsZero(k);
    } else {
      ZerosBehind(n - 1, k, v / 2);
      assert ToBits(n, v) + Zeros(k) == [v % 2 == 1] + (ToBits(n - 1, v / 2) + Zeros(k));
    }
  }

  /** Some rule for constants applies. */
  predicate LshrRule(a: Term, b: Term)
    requires Width(a) == Width(b)
  {
    b.Constant? && (a.Constant? || (ByPiece(b) && b.value < Width(a) && Width(a) <= 64))
  }

  /** `bvlshr` denotes the right shift. */
  lemma {:induction false} BvLshrMeans(env: Env, a: Term, b: Term)
    requires Width(a) == Width(b) && Shiftable(a, b)
    ensures Eval(env, BvLshr(a, b)) == ShiftR(Eval(env, a), Value(Eval(env, b)))
    decreases Width(a), 2
  {
    if LshrRule(a, b) {
      LshrRuleMeans(env, a, b);
    } else {
      LshrKeptIs(a, b);
      RightMeans(env, a, b);
    }
  }

  lemma {:induction false} LshrKeptIs(a: Term, b: Term)
    requires Width(a) == Width(b) && Shiftable(a, b) && !LshrRule(a, b)
    ensures BvLshr(a, b) == Binary(ShiftingR, a, b)
  {
  }

  lemma {:induction false} RightMeans(env: Env, a: Term, b: Term)
    requires Width(a) == Width(b)
    ensures Eval(env, Binary(ShiftingR, a, b)) == ShiftR(Eval(env, a), Value(Eval(env, b)))
  {
  }

  lemma {:induction false} LshrRuleMeans(env: Env, a: Term, b: Term)
    requires Width(a) == Width(b) && Shiftable(a, b) && LshrRule(a, b)
    ensures Eval(env, BvLshr(a, b)) == ShiftR(Eval(env, a), Value(Eval(env, b)))
    decreases Width(a), 1
  {
    ConstantValue(env, b);
    BvLshrIs(a, b);
    if a.Constant? {
      LshrFoldMeans(env, a, b.value);
    } else {
      LshrPieceMeans(env, a, b.value);
    }
  }

  lemma {:induction false} LshrFoldMeans(env: Env, a: Term, k: nat)
    requires a.Constant?
    ensures Eval(env, Const(a.width, Shifted(a.value, k))) == ShiftR(Eval(env, a), k)
  {
    ConstMeans(env, a.width, Shifted(a.value, k));
    ShiftedBits(a.width, a.value, k);
  }

  lemma {:induction false} BvLshrIs(a: Term, b: Term)
    requires Width(a) == Width(b) && Shiftable(a, b) && LshrRule(a, b)
    ensures BvLshr(a, b) ==
      if a.Constant? then Const(a.width, Shifted(a.value, b.value)) else LshrPiece(a, b.value)
  {
  }

  lemma {:induction false} LshrPieceMeans(env: Env, a: Term, k: nat)
    requires Piece(k) && k < Width(a) <= 64
    ensures Eval(env, LshrPiece(a, k)) == ShiftR(Eval(env, a), k)
    decreases Width(a), 0
  {
    if a.Concatenation? && Width(a.a) == 8 && Width(a.b) == k {
      LshrConcatMeans(env, a, k);
    } else if a.Concatenation? && Width(a.a) == 8 && Width(a.b) > k {
      LshrInsideIs(a, k);
      LshrInsideMeans(env, a, k);
    } else {
      LshrExtractIs(a, k);
      LshrExtractMeans(env, a, k);
    }
  }

  lemma {:induction false} LshrConcatMeans(env: Env, a: Term, k: nat)
    requires Piece(k) && a.Concatenation? && Width(a.b) == k
    ensures Eval(env, Extend(k, a.a)) == ShiftR(Eval(env, a), k)
  {
    ExtendMeans(env, k, a.a);
    WidthPositive(a.a);
  }

  lemma {:induction false} LshrExtractMeans(env: Env, a: Term, k: nat)
    requires Piece(k) && k < Width(a)
    ensures Eval(env, Extend(k, Extract(Width(a) - 1, k, a))) == ShiftR(Eval(env, a), k)
  {
    ExtractMeans(env, Width(a) - 1, k, a);
    ExtendMeans(env, k, Extract(Width(a) - 1, k, a));
    CutRight(Eval(env, a), k);
  }

  lemma {:induction false} LshrExtractIs(a: Term, k: nat)
    requires Piece(k) && k < Width(a) <= 64 && !(a.Concatenation? && Width(a.a) == 8 && Width(a.b) >= k)
    ensures LshrPiece(a, k) == Extend(k, Extract(Width(a) - 1, k, a))
  {
  }

  lemma {:induction false} LshrInsideIs(a: Term, k: nat)
    requires Piece(k) && k < Width(a) <= 64 && a.Concatenation? && Width(a.a) == 8 && Width(a.b) > k
    ensures LshrPiece(a, k) == LshrInside(a, k)
  {
  }

  lemma {:induction false} LshrInsideMeans(env: Env, a: Term, k: nat)
    requires Piece(k) && a.Concatenation? && Width(a.a) == 8 && k < Width(a.b) && Width(a) <= 64
    ensures Eval(env, LshrInside(a, k)) == ShiftR(Eval(env, a), k)
    decreases Width(a), -1
  {
    PieceFits(Width(a.b), k);
    var c := Const(Width(a.b), k);
    var s := BvLshr(a.b, c);
    BvLshrMeans(env, a.b, c);
    ConstantValue(env, c);
    ExtractMeans(env, Width(s) - k - 1, 0, s);
    InsideMeans(env, a, k, Extract(Width(s) - k - 1, 0, s));
  }

  lemma {:induction false} InsideMeans(env: Env, a: Term, k: nat, low: Term)
    requires Piece(k) && a.Concatenation? && k < Width(a.b)
    requires Eval(env, low) == ShiftR(Eval(env, a.b), k)[0..Width(a.b) - k - 1 + 1]
    ensures Eval(env, Extend(k, Concat(a.a, low))) == ShiftR(Eval(env, a), k)
  {
    BehindMeans(env, a.a, low, k, Eval(env, low));
    ShiftInside(Eval(env, a.b), Eval(env, a.a), k);
  }

  lemma {:induction false} BehindMeans(env: Env, high: Term, low: Term, k: nat, y: Bitseq)
    requires 1 <= k <= 64 && Eval(env, low) == y
    ensures Eval(env, Extend(k, Concat(high, low))) == y + Eval(env, high) + Zeros(k)
  {
    ConcatMeans(env, high, low);
    ExtendedMeans(env, k, Concat(high, low), y + Eval(env, high));
  }

  lemma {:induction false} ShiftInside(low: Bitseq, high: Bitseq, k: nat)
    requires 0 < k < |low|
    ensures ShiftR(low + high, k) == ShiftR(low, k)[0..|low| - k - 1 + 1] + high + Zeros(k)
  {
  }

  // Addition.

  /** All but the low 32 bits of something. */
  predicate UpperPart(e: Term) { e.Extraction? && e.lo == 32 && e.hi == Width(e.e) - 1 }

  /** `expr::bvadd`. */
  function BvAdd(a: Term, b: Term): (r: Term)
    requires Width(a) == Width(b)
    ensures Width(r) == Width(a)
    decreases 100 - Width(a), 1
  {
    var w := Width(a);
    if a.Constant? && b.Constant? then Const(w, a.value + b.value)
    else if IsZero(a) then b
    else if IsZero(b) then a
    else if UpperPart(b) && w + 32 <= 65 then AddUpper(a, b)
    else if UpperPart(a) && w + 32 <= 65 then AddUpper(b, a)
    else Binary(Adding, a, b)
  }

  /** The sum is taken before the extraction. */
  function AddUpper(a: Term, b: Term): (r: Term)
    requires Width(a) == Width(b) <= 33 && UpperPart(b)
    ensures Width(r) == Width(a)
    decreases 100 - Width(a), 0
  {
    Extract(Width(a) + 31, 32, BvAdd(Concat(a, Const(32, 0)), b.e))
  }

  /** `bvadd` denotes the sum, without the carry. */
  lemma {:induction false} BvAddMeans(env: Env, a: Term, b: Term)
    requires Width(a) == Width(b)
    ensures Eval(env, BvAdd(a, b)) == Add(Eval(env, a), Eval(env, b), false)
    decreases 100 - Width(a), 1
  {
    if (a.Constant? && b.Constant?) || IsZero(a) || IsZero(b) {
      AddConstantMeans(env, a, b);
    } else {
      if UpperPart(b) && Width(a) + 32 <= 65 {
        BvAddUpperIs(a, b);
        AddUpperMeans(env, a, b);
      } else if UpperPart(a) && Width(a) + 32 <= 65 {
        BvAddUpperLeftIs(a, b);
        AddUpperLeftMeans(env, a, b);
      } else {
        BvAddKeptIs(a, b);
        AddingMeans(env, a, b);
      }
    }
  }

  lemma {:induction false} AddingMeans(env: Env, a: Term, b: Term)
    requires Width(a) == Width(b)
    ensures Eval(env, Binary(Adding, a, b)) == Add(Eval(env, a), Eval(env, b), false)
  {
  }

  lemma {:induction false} AddUpperLeftMeans(env: Env, a: Term, b: Term)
    requires Width(a) == Width(b) <= 33 && UpperPart(a)
    ensures Eval(env, AddUpper(b, a)) == Add(Eval(env, a), Eval(env, b), false)
    decreases 100 - Width(a), 0
  {
    AddUpperMeans(env, b, a);
    AddCommutes(Eval(env, a), Eval(env, b), false);
  }

  lemma {:induction false} AddConstantMeans(env: Env, a: Term, b: Term)
    requires Width(a) == Width(b) && ((a.Constant? && b.Constant?) || IsZero(a) || IsZero(b))
    ensures Eval(env, BvAdd(a, b)) == Add(Eval(env, a), Eval(env, b), false)
  {
    BvAddConstantIs(a, b);
    if a.Constant? && b.Constant? {
      AddFoldMeans(env, a, b, false);
    } else if IsZero(a) {
      IsZeroMeans(env, a);
      AddZeros(Eval(env, b));
    } else {
      IsZeroMeans(env, b);
      AddZeros(Eval(env, a));
    }
  }

  lemma {:induction false} AddFoldMeans(env: Env, a: Term, b: Term, c: bool)
    requires Width(a) == Width(b) && a.Constant? && b.Constant? && !c
    ensures Eval(env, Const(Width(a), a.value + b.value)) == Add(Eval(env, a), Eval(env, b), c)
  {
    ConstMeans(env, Width(a), a.value + b.value);
    AddConstants(Width(a), a.value, b.value);
  }

  lemma {:induction false} BvAddConstantIs(a: Term, b: Term)
    requires Width(a) == Width(b) && ((a.Constant? && b.Constant?) || IsZero(a) || IsZero(b))
    ensures BvAdd(a, b) ==
      if a.Constant? && b.Constant? then Const(Width(a), a.value + b.value) else if IsZero(a) then b else a
  {
  }

  lemma {:induction false} BvAddUpperIs(a: Term, b: Term)
    requires Width(a) == Width(b) && !(a.Constant? && b.Constant?) && !IsZero(a) && !IsZero(b)
    requires UpperPart(b) && Width(a) + 32 <= 65
    ensures BvAdd(a, b) == AddUpper(a, b)
  {
  }

  lemma {:induction false} BvAddUpperLeftIs(a: Term, b: Term)
    requires Width(a) == Width(b) && !(a.Constant? && b.Constant?) && !IsZero(a) && !IsZero(b)
    requires !UpperPart(b) && UpperPart(a) && Width(a) + 32 <= 65
    ensures BvAdd(a, b) == AddUpper(b, a)
  {
  }

  lemma {:induction false} BvAddKeptIs(a: Term, b: Term)
    requires Width(a) == Width(b) && !(a.Constant? && b.Constant?) && !IsZero(a) && !IsZero(b)
    requires !((UpperPart(a) || UpperPart(b)) && Width(a) + 32 <= 65)
    ensures BvAdd(a, b) == Binary(Adding, a, b)
  {
  }

  lemma {:induction false} AddUpperMeans(env: Env, a: Term, b: Term)
    requires Width(a) == Width(b) <= 33 && UpperPart(b)
    ensures Eval(env, AddUpper(a, b)) == Add(Eval(env, a), Eval(env, b), false)
    decreases 100 - Width(a), -1
  {
    var c := Concat(a, Const(32, 0));
    TailMeans(env, a, 32);
    BvAddMeans(env, c, b.e);
    UpperSum(env, a, b, c, BvAdd(c, b.e), 32);
  }

  lemma {:induction false} UpperSum(env: Env, a: Term, b: Term, c: Term, s: Term, n: nat)
    requires Width(a) == Width(b) && UpperPart(b) && n == 32 && Width(c) == Width(s) == Width(b.e) == n + Width(a)
    requires Eval(env, c) == Zeros(n) + Eval(env, a) && Eval(env, s) == Add(Eval(env, c), Eval(env, b.e), false)
    ensures Eval(env, Extract(Width(a) + 31, 32, s)) == Add(Eval(env, a), Eval(env, b), false)
  {
    ExtractMeans(env, Width(a) + 31, 32, s);
    UpperIs(env, b);
    AddAbove(Eval(env, a), Eval(env, b.e), n);
  }

  lemma {:induction false} UpperIs(env: Env, b: Term)
    requires UpperPart(b)
    ensures Eval(env, b) == Eval(env, b.e)[32..]
  {
  }

  lemma {:induction false} AddAbove(x: Bitseq, y: Bitseq, n: nat)
    requires |y| == n + |x|
    ensures Add(Zeros(n) + x, y, false)[n..n + |x|] == Add(x, y[n..], false)
  {
    assert y == y[..n] + y[n..];
    AddConcat(Zeros(n), x, y[..n], y[n..], false);
    AddZeros(y[..n]);
  }
}
