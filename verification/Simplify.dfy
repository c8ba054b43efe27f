/** The constructors denote what they replace. */
module Simplify {
  import opened BitVectors
  import opened Expressions

  lemma {:induction false} ConstMeans(env: Env, w: nat, v: nat)
    requires 1 <= w <= 64
    ensures Eval(env, Const(w, v)) == ToBits(w, v)
  {
    MaskBits(w, v);
  }

  lemma {:induction false} SliceHigh(y: Bitseq, z: Bitseq, lo: nat, hi: nat)
    requires |y| <= lo <= hi < |y| + |z|
    ensures (y + z)[lo..hi + 1] == z[lo - |y|..hi - |y| + 1]
  {
  }

  lemma {:induction false} SliceLow(y: Bitseq, z: Bitseq, lo: nat, hi: nat)
    requires lo <= hi < |y|
    ensures (y + z)[lo..hi + 1] == y[lo..hi + 1]
  {
  }

  lemma {:induction false} SliceBoth(y: Bitseq, z: Bitseq, lo: nat, hi: nat)
    requires lo < |y| <= hi < |y| + |z|
    ensures (y + z)[lo..hi + 1] == y[lo..|y| - 1 + 1] + z[0..hi - |y| + 1]
  {
  }

  lemma {:induction false} SliceSlice(x: Bitseq, l: nat, h: nat, lo: nat, hi: nat)
    requires l <= h < |x| && lo <= hi < h - l + 1
    ensures x[l..h + 1][lo..hi + 1] == x[l + lo..l + hi + 1]
  {
    var y := x[l..h + 1];
    assert forall i :: lo <= i < hi + 1 ==> y[i] == x[l + i];
  }

  /** `extract` denotes the bits from `lo` to `hi`. */
  lemma {:induction false} ExtractMeans(env: Env, hi: nat, lo: nat, e: Term)
    requires lo <= hi < Width(e)
    ensures Eval(env, Extract(hi, lo, e)) == Eval(env, e)[lo..hi + 1]
    decreases Budget(hi, lo, e), 0, e, 3
  {
    if e.Constant? {
      ConstMeans(env, hi - lo + 1, Shifted(e.value, lo));
      ToBitsShift(e.width, e.value, lo, hi - lo + 1);
    } else if lo == 0 && hi + 1 == Width(e) {
      assert Eval(env, e)[0..hi + 1] == Eval(env, e);
    } else if e.Concatenation? {
      ExtractConcatenationMeans(env, hi, lo, e);
    } else if e.Extraction? {
      ExtractExtractionMeans(env, hi, lo, e);
    }
  }

  lemma {:induction false} ExtractConcatenationMeans(env: Env, hi: nat, lo: nat, e: Term)
    requires lo <= hi < Width(e) && e.Concatenation?
    ensures Eval(env, ExtractConcatenation(hi, lo, e)) == Eval(env, e)[lo..hi + 1]
    decreases Budget(hi, lo, e), 0, e, 2
  {
    match PartOf(hi, lo, e)
    case High =>
      HighShape(hi, lo, e);
      HighIs(hi, lo, e);
      HighMeans(env, hi, lo, e, ExtractConcatenation(hi, lo, e));
    case Low => LowMeans(env, hi, lo, e);
    case Both => BothMeans(env, hi, lo, e);
    case Whole => WholeMeans(env, hi, lo, e);
  }

  lemma {:induction false} HighMeans(env: Env, hi: nat, lo: nat, e: Term, r: Term)
    requires e.Concatenation? && Width(e.b) <= lo <= hi < Width(e)
    requires r == Extract(hi - Width(e.b), lo - Width(e.b), e.a)
    requires Budget(hi - Width(e.b), lo - Width(e.b), e.a) < Budget(hi, lo, e)
    ensures Eval(env, r) == Eval(env, e)[lo..hi + 1]
    decreases Budget(hi, lo, e), 0, e, 1
  {
    ExtractMeans(env, hi - Width(e.b), lo - Width(e.b), e.a);
    HighBits(env, hi, lo, e, r);
  }

  lemma {:induction false} LowMeans(env: Env, hi: nat, lo: nat, e: Term)
    requires lo <= hi < Width(e) && e.Concatenation? && PartOf(hi, lo, e) == Low
    ensures Eval(env, ExtractConcatenation(hi, lo, e)) == Eval(env, e)[lo..hi + 1]
    decreases Budget(hi, lo, e), 0, e, 1
  {
    LowIs(hi, lo, e);
    ExtractMeans(env, hi, lo, e.b);
    LowBits(env, hi, lo, e, Extract(hi, lo, e.b));
  }

  lemma {:induction false} WholeMeans(env: Env, hi: nat, lo: nat, e: Term)
    requires lo <= hi < Width(e) && e.Concatenation? && PartOf(hi, lo, e) == Whole
    ensures Eval(env, ExtractConcatenation(hi, lo, e)) == Eval(env, e)[lo..hi + 1]
  {
    KeptBits(env, hi, lo, e);
  }

  lemma {:induction false} HighShape(hi: nat, lo: nat, e: Term)
    requires lo <= hi < Width(e) && e.Concatenation? && PartOf(hi, lo, e) == High
    ensures lo >= Width(e.b) && hi - Width(e.b) < Width(e.a)
    ensures Budget(hi - Width(e.b), lo - Width(e.b), e.a) < Budget(hi, lo, e)
  {
  }

  lemma {:induction false} HighIs(hi: nat, lo: nat, e: Term)
    requires lo <= hi < Width(e) && e.Concatenation? && PartOf(hi, lo, e) == High
    ensures ExtractConcatenation(hi, lo, e) == Extract(hi - Width(e.b), lo - Width(e.b), e.a)
  {
  }

  lemma {:induction false} LowIs(hi: nat, lo: nat, e: Term)
    requires lo <= hi < Width(e) && e.Concatenation? && PartOf(hi, lo, e) == Low
    ensures ExtractConcatenation(hi, lo, e) == Extract(hi, lo, e.b)
  {
  }

  lemma {:induction false} BothIs(hi: nat, lo: nat, e: Term)
    requires lo <= hi < Width(e) && e.Concatenation? && PartOf(hi, lo, e) == Both
    ensures ExtractConcatenation(hi, lo, e)
         == Concat(Extract(hi - Width(e.b), 0, e.a), Extract(Width(e.b) - 1, lo, e.b))
  {
  }

  lemma {:induction false} Parts(env: Env, e: Term)
    requires e.Concatenation?
    ensures Eval(env, e) == Eval(env, e.b) + Eval(env, e.a)
  {
  }

  lemma {:induction false} HighBits(env: Env, hi: nat, lo: nat, e: Term, r: Term)
    requires lo <= hi < Width(e) && e.Concatenation? && lo >= Width(e.b)
    requires Eval(env, r) == Eval(env, e.a)[lo - Width(e.b)..hi - Width(e.b) + 1]
    ensures Eval(env, r) == Eval(env, e)[lo..hi + 1]
  {
    Parts(env, e);
    SliceHigh(Eval(env, e.b), Eval(env, e.a), lo, hi);
  }

  lemma {:induction false} LowBits(env: Env, hi: nat, lo: nat, e: Term, r: Term)
    requires lo <= hi < Width(e) && e.Concatenation? && hi < Width(e.b)
    requires Eval(env, r) == Eval(env, e.b)[lo..hi + 1]
    ensures Eval(env, r) == Eval(env, e)[lo..hi + 1]
  {
    Parts(env, e);
    SliceLow(Eval(env, e.b), Eval(env, e.a), lo, hi);
  }

  lemma {:induction false} BothMeans(env: Env, hi: nat, lo: nat, e: Term)
    requires lo <= hi < Width(e) && e.Concatenation? && PartOf(hi, lo, e) == Both
    ensures Eval(env, ExtractConcatenation(hi, lo, e)) == Eval(env, e)[lo..hi + 1]
    decreases Budget(hi, lo, e), 0, e, 1
  {
    BothIs(hi, lo, e);
    ExtractMeans(env, hi - Width(e.b), 0, e.a);
    ExtractMeans(env, Width(e.b) - 1, lo, e.b);
    PartsMeans(env, hi, lo, e, Extract(hi - Width(e.b), 0, e.a), Extract(Width(e.b) - 1, lo, e.b));
  }

  lemma {:induction false} PartsMeans(env: Env, hi: nat, lo: nat, e: Term, a: Term, b: Term)
    requires e.Concatenation? && lo < Width(e.b) <= hi < Width(e)
    requires Eval(env, a) == Eval(env, e.a)[0..hi - Width(e.b) + 1]
    requires Eval(env, b) == Eval(env, e.b)[lo..Width(e.b) - 1 + 1]
    ensures Eval(env, Concat(a, b)) == Eval(env, e)[lo..hi + 1]
    decreases 2 * (Nodes(a) + Nodes(b) + 1), Nodes(a), b, 3
  {
    ConcatMeans(env, a, b);
    BothBits(env, hi, lo, e);
  }

  lemma {:induction false} BothBits(env: Env, hi: nat, lo: nat, e: Term)
    requires e.Concatenation? && lo < Width(e.b) <= hi < Width(e)
    ensures Eval(env, e.b)[lo..Width(e.b) - 1 + 1] + Eval(env, e.a)[0..hi - Width(e.b) + 1] == Eval(env, e)[lo..hi + 1]
  {
    Parts(env, e);
    SliceBoth(Eval(env, e.b), Eval(env, e.a), lo, hi);
  }

  lemma {:induction false} ExtractExtractionMeans(env: Env, hi: nat, lo: nat, e: Term)
    requires lo <= hi < Width(e) && e.Extraction? && !(lo == 0 && hi + 1 == Width(e))
    ensures Eval(env, ExtractExtraction(hi, lo, e)) == Eval(env, e)[lo..hi + 1]
    decreases Budget(hi, lo, e), 0, e, 2
  {
    if Through(hi, lo, e) {
      ThroughMeans(env, hi, lo, e);
    } else {
      ThroughIs(hi, lo, e);
      KeptBits(env, hi, lo, e);
    }
  }

  lemma {:induction false} ThroughMeans(env: Env, hi: nat, lo: nat, e: Term)
    requires lo <= hi < Width(e) && e.Extraction? && !(lo == 0 && hi + 1 == Width(e)) && Through(hi, lo, e)
    ensures Eval(env, ExtractExtraction(hi, lo, e)) == Eval(env, e)[lo..hi + 1]
    decreases Budget(hi, lo, e), 0, e, 1
  {
    ThroughIs(hi, lo, e);
    ExtractMeans(env, hi + e.lo, lo + e.lo, e.e);
    InnerBits(env, hi, lo, e, Extract(hi + e.lo, lo + e.lo, e.e));
  }

  lemma {:induction false} ThroughIs(hi: nat, lo: nat, e: Term)
    requires lo <= hi < Width(e) && e.Extraction? && !(lo == 0 && hi + 1 == Width(e))
    ensures Through(hi, lo, e) ==> ExtractExtraction(hi, lo, e) == Extract(hi + e.lo, lo + e.lo, e.e)
    ensures !Through(hi, lo, e) ==> ExtractExtraction(hi, lo, e) == Extraction(hi, lo, e)
  {
  }

  lemma {:induction false} InnerBits(env: Env, hi: nat, lo: nat, e: Term, r: Term)
    requires lo <= hi < Width(e) && e.Extraction?
    requires Eval(env, r) == Eval(env, e.e)[lo + e.lo..hi + e.lo + 1]
    ensures Eval(env, r) == Eval(env, e)[lo..hi + 1]
  {
    SliceSlice(Eval(env, e.e), e.lo, e.hi, lo, hi);
  }

  lemma {:induction false} KeptBits(env: Env, hi: nat, lo: nat, e: Term)
    requires lo <= hi < Width(e)
    ensures Eval(env, Extraction(hi, lo, e)) == Eval(env, e)[lo..hi + 1]
  {
  }

  /** `concat` denotes the two bit strings, one behind the other. */
  lemma {:induction false} ConcatMeans(env: Env, a: Term, b: Term)
    ensures Eval(env, Concat(a, b)) == Eval(env, b) + Eval(env, a)
    decreases 2 * (Nodes(a) + Nodes(b) + 1), Nodes(a), b, 2
  {
    if a.Constant? {
      ConcatConstantMeans(env, a, b);
    } else if a.Concatenation? && Width(a.a) == 8 {
      ConcatMeans(env, a.b, b);
      ConcatMeans(env, a.a, Concat(a.b, b));
      Associate(Eval(env, b), Eval(env, a.b), Eval(env, a.a));
    }
  }

  lemma {:induction false} JoinedMeans(env: Env, a: Term, b: Term)
    requires a.Constant? && b.Constant? && Width(a) + Width(b) <= 64
    ensures Eval(env, Joined(a, b)) == Eval(env, b) + Eval(env, a)
  {
    ConstMeans(env, Width(a) + Width(b), ShiftedUp(a.value, Width(b)) + b.value);
    JoinedBits(Width(a), Width(b), a.value, b.value);
  }

  lemma {:induction false} JoinedBits(wa: nat, wb: nat, a: nat, b: nat)
    requires b < Pow(wb)
    ensures ToBits(wa + wb, ShiftedUp(a, wb) + b) == ToBits(wb, b) + ToBits(wa, a)
  {
    ToBitsJoin(wb, wa, a, b);
  }

  lemma {:induction false} ConcatConstantMeans(env: Env, a: Term, b: Term)
    requires a.Constant?
    ensures Eval(env, ConcatConstant(a, b)) == Eval(env, b) + Eval(env, a)
    decreases 2 * (Nodes(a) + Nodes(b) + 1), Nodes(a), b, 1
  {
    ConcatConstantIs(a, b);
    match JoinOf(a, b)
    case Fold =>
      JoinedMeans(env, a, b);
    case Merge =>
      MergeMeans(env, a, b);
    case Pull =>
      PullMeans(env, a, b);
    case Keep =>
  }

  lemma {:induction false} ConcatConstantIs(a: Term, b: Term)
    requires a.Constant?
    ensures JoinOf(a, b) == Fold ==> ConcatConstant(a, b) == Joined(a, b)
    ensures JoinOf(a, b) == Merge ==> ConcatConstant(a, b) == Concat(Joined(a, b.a), b.b)
    ensures JoinOf(a, b) == Pull ==> ConcatConstant(a, b) == Extract(31 + Width(a) + Width(b), 32, Concat(a, b.e))
    ensures JoinOf(a, b) == Keep ==> ConcatConstant(a, b) == Concatenation(a, b)
  {
  }

  lemma {:induction false} MergeMeans(env: Env, a: Term, b: Term)
    requires a.Constant? && JoinOf(a, b) == Merge
    ensures Eval(env, Concat(Joined(a, b.a), b.b)) == Eval(env, b) + Eval(env, a)
    decreases 2 * (Nodes(a) + Nodes(b) + 1), 0, b, 0
  {
    JoinedMeans(env, a, b.a);
    ConcatMeans(env, Joined(a, b.a), b.b);
    Associate(Eval(env, b.b), Eval(env, b.a), Eval(env, a));
  }

  lemma {:induction false} PullMeans(env: Env, a: Term, b: Term)
    requires a.Constant? && JoinOf(a, b) == Pull
    ensures Eval(env, Extract(31 + Width(a) + Width(b), 32, Concat(a, b.e))) == Eval(env, b) + Eval(env, a)
    decreases 2 * (Nodes(a) + Nodes(b) + 1), Nodes(a), b, 0
  {
    ConcatMeans(env, a, b.e);
    ExtractMeans(env, 31 + Width(a) + Width(b), 32, Concat(a, b.e));
    PulledBits(env, a, b);
  }

  lemma {:induction false} PulledBits(env: Env, a: Term, b: Term)
    requires b.Extraction? && b.hi == Width(b.e) - 1
    ensures (Eval(env, b.e) + Eval(env, a))[b.lo..b.lo + Width(a) + Width(b)] == Eval(env, b) + Eval(env, a)
  {
    SliceAcross(Eval(env, b.e), Eval(env, a), b.lo);
  }

  lemma {:induction false} Associate(x: Bitseq, y: Bitseq, z: Bitseq)
    ensures x + (y + z) == x + y + z
  {
  }

  lemma {:induction false} SliceAcross(y: Bitseq, z: Bitseq, lo: nat)
    requires lo < |y|
    ensures (y + z)[lo..|y| + |z|] == y[lo..|y|] + z
  {
  }
}
