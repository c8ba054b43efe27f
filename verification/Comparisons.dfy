/** The constructors for unsigned comparisons and for equality as a bit, and what they denote. */
module Comparisons {
  import opened BitVectors
  import opened Expressions
  import opened Simplify
  import opened Operators
  import opened Masks

  datatype Formula =
    | Truth(value: bool)
    | Below(a: Term, b: Term)
    | AtLeast(a: Term, b: Term)
    | Not(f: Formula)

  predicate Sound(f: Formula) {
    match f
    case Truth(_) => true
    case Below(a, b) => Width(a) == Width(b)
    case AtLeast(a, b) => Width(a) == Width(b)
    case Not(g) => Sound(g)
  }

  predicate Holds(env: Env, f: Formula)
    requires Sound(f)
  {
    match f
    case Truth(v) => v
    case Below(a, b) => Value(Eval(env, a)) < Value(Eval(env, b))
    case AtLeast(a, b) => Value(Eval(env, a)) >= Value(Eval(env, b))
    case Not(g) => !Holds(env, g)
  }

  /** `BVULTConcatConstant` and `BVUGEConcatConstant`: a constant in front of what is compared. */
  predicate Peels(a: Term, b: Term) {
    && b.Constant? && a.Concatenation? && a.a.Constant? && Width(a) == Width(b)
    && ((Width(a) == 64 && Width(a.a) == 31) || (Width(a) == 33 && Width(a.a) == 19))
  }

  /** The high part of the constant, to be compared with the one in front. */
  function Front(a: Term, b: Term): nat
    requires Peels(a, b)
  {
    Shifted(b.value, Width(a.b))
  }

  function Rest(a: Term, b: Term): (r: Term)
    requires Peels(a, b)
    ensures Width(r) == Width(a.b) < Width(a)
  {
    Const(Width(a.b), b.value)
  }

  /** `expr::bvult`. */
  function BvUlt(a: Term, b: Term): (f: Formula)
    requires Width(a) == Width(b)
    ensures Sound(f)
    decreases Width(a)
  {
    if a.Constant? && b.Constant? then Truth(a.value < b.value)
    else if Peels(a, b) then
      if a.a.value < Front(a, b) then Truth(true)
      else if a.a.value > Front(a, b) then Truth(false)
      else BvUlt(a.b, Rest(a, b))
    else Below(a, b)
  }

  /** `expr::bvuge`. */
  function BvUge(a: Term, b: Term): (f: Formula)
    requires Width(a) == Width(b)
    ensures Sound(f)
    decreases Width(a)
  {
    if a.Constant? && b.Constant? then Truth(a.value >= b.value)
    else if Peels(a, b) then
      if a.a.value > Front(a, b) then Truth(true)
      else if a.a.value < Front(a, b) then Truth(false)
      else BvUge(a.b, Rest(a, b))
    else AtLeast(a, b)
  }

  /** Both sides in two parts. */
  lemma {:induction false} PeelBits(env: Env, a: Term, b: Term)
    requires Peels(a, b)
    ensures Eval(env, a) == Eval(env, a.b) + Eval(env, a.a)
    ensures Eval(env, b) == Eval(env, Rest(a, b)) + ToBits(Width(a.a), Front(a, b))
    ensures Value(ToBits(Width(a.a), Front(a, b))) == Front(a, b)
  {
    ToBitsParts(Width(a.b), Width(a.a), b.value);
    ConstMeans(env, Width(a.b), b.value);
    ShiftedBelow(Width(a.b), Width(a.a), b.value);
    MaskSmall(Width(a.a), Front(a, b));
  }

  lemma {:induction false} PeelCompares(env: Env, a: Term, b: Term)
    requires Peels(a, b)
    ensures a.a.value < Front(a, b) ==> Value(Eval(env, a)) < Value(Eval(env, b))
    ensures a.a.value > Front(a, b) ==> Value(Eval(env, b)) < Value(Eval(env, a))
    ensures a.a.value == Front(a, b) ==>
      (Value(Eval(env, a)) < Value(Eval(env, b)) <==> Value(Eval(env, a.b)) < Value(Eval(env, Rest(a, b))))
  {
    PeelBits(env, a, b);
    ConstantValue(env, a.a);
    var x, x', y, y' := Eval(env, a.b), Eval(env, a.a), Eval(env, Rest(a, b)), ToBits(Width(a.a), Front(a, b));
    if a.a.value < Front(a, b) {
      CompareHigh(x, x', y, y');
    } else if a.a.value > Front(a, b) {
      CompareHigh(y, y', x, x');
    } else {
      ValueInjective(x', y');
      CompareLow(x, y, x');
    }
  }

  /** `bvult` holds where the one number is below the other. */
  lemma {:induction false} BvUltMeans(env: Env, a: Term, b: Term)
    requires Width(a) == Width(b)
    ensures Holds(env, BvUlt(a, b)) <==> Value(Eval(env, a)) < Value(Eval(env, b))
    decreases Width(a)
  {
    if a.Constant? && b.Constant? {
      ConstantValue(env, a);
      ConstantValue(env, b);
    } else if Peels(a, b) {
      PeelCompares(env, a, b);
      if a.a.value == Front(a, b) {
        BvUltMeans(env, a.b, Rest(a, b));
      }
    }
  }

  /** `bvuge` holds where it is not. */
  lemma {:induction false} BvUgeMeans(env: Env, a: Term, b: Term)
    requires Width(a) == Width(b)
    ensures Holds(env, BvUge(a, b)) <==> Value(Eval(env, a)) >= Value(Eval(env, b))
    decreases Width(a)
  {
    if a.Constant? && b.Constant? {
      ConstantValue(env, a);
      ConstantValue(env, b);
    } else if Peels(a, b) {
      PeelCompares(env, a, b);
      if a.a.value == Front(a, b) {
        BvUgeMeans(env, a.b, Rest(a, b));
      }
    }
  }

  /** `expr::isfalse`. */
  function IsFalse(f: Formula): (r: Formula)
    requires Sound(f)
    ensures Sound(r)
  {
    match f
    case Truth(v) => Truth(!v)
    case Below(a, b) => if Width(a) == 14 || Width(a) == 32 || Width(a) == 64 then BvUge(a, b) else Not(f)
    case _ => Not(f)
  }

  lemma {:induction false} IsFalseMeans(env: Env, f: Formula)
    requires Sound(f)
    ensures Holds(env, IsFalse(f)) <==> !Holds(env, f)
  {
    if f.Below? {
      BvUgeMeans(env, f.a, f.b);
    }
  }

  // Equality as a bit.

  predicate IsOr(e: Term) { e.Binary? && e.op.Oring? }

  /** `expr::bvcomp`: an or is zero if both its sides are. */
  function BvComp(a: Term, b: Term): (r: Term)
    requires Width(a) == Width(b)
    ensures Width(r) == 1
    decreases a, b
  {
    if a.Constant? && b.Constant? then Const(1, if a.value == b.value then 1 else 0)
    else if IsZero(a) && IsOr(b) then BvAnd(BvComp(a, b.a), BvComp(a, b.b))
    else if IsZero(b) && IsOr(a) then BvAnd(BvComp(a.a, b), BvComp(a.b, b))
    else Binary(Comparing, a, b)
  }

  /** Nothing one bit wide is a concatenation, so no mask is cut there. */
  lemma {:induction false} BitFits(a: Term, b: Term)
    requires Width(a) == Width(b) == 1
    ensures Fits(a, b)
  {
    OneBit(a);
    OneBit(b);
  }

  lemma {:induction false} OneBit(e: Term)
    requires Width(e) == 1
    ensures !Split(e)
  {
  }

  lemma {:induction false} OrIsZero(x: Bitseq, y: Bitseq)
    requires |x| == |y|
    ensures Or(x, y) == Zeros(|x|) <==> x == Zeros(|x|) && y == Zeros(|x|)
  {
    if Or(x, y) == Zeros(|x|) {
      forall i | 0 <= i < |x| ensures !x[i] && !y[i] {
        assert Or(x, y)[i] == (x[i] || y[i]);
        assert !Zeros(|x|)[i];
      }
    }
  }

  lemma {:induction false} AndBits(p: bool, q: bool)
    ensures And([p], [q]) == [p && q]
  {
  }

  /** `bvcomp` denotes the bit that says whether both are equal. */
  lemma {:induction false} BvCompMeans(env: Env, a: Term, b: Term)
    requires Width(a) == Width(b)
    ensures Eval(env, BvComp(a, b)) == [Eval(env, a) == Eval(env, b)]
    decreases a, b
  {
    if a.Constant? && b.Constant? {
      ConstantsCompare(env, a, b);
    } else if IsZero(a) && IsOr(b) {
      BvCompMeans(env, a, b.a);
      BvCompMeans(env, a, b.b);
      IsZeroMeans(env, a);
      BothZero(env, BvComp(a, b.a), BvComp(a, b.b), Eval(env, b.a), Eval(env, b.b));
    } else if IsZero(b) && IsOr(a) {
      BvCompMeans(env, a.a, b);
      BvCompMeans(env, a.b, b);
      IsZeroMeans(env, b);
      BothZero(env, BvComp(a.a, b), BvComp(a.b, b), Eval(env, a.a), Eval(env, a.b));
    }
  }

  lemma {:induction false} ConstantsCompare(env: Env, a: Term, b: Term)
    requires Width(a) == Width(b) && a.Constant? && b.Constant?
    ensures Eval(env, Const(1, if a.value == b.value then 1 else 0)) == [Eval(env, a) == Eval(env, b)]
  {
    var v := if a.value == b.value then 1 else 0;
    ConstMeans(env, 1, v);
    assert ToBits(1, v) == [v == 1];
    MaskSmall(a.width, a.value);
    MaskSmall(b.width, b.value);
  }

  lemma {:induction false} BothZero(env: Env, p: Term, q: Term, x: Bitseq, y: Bitseq)
    requires Width(p) == Width(q) == 1 && |x| == |y|
    requires Eval(env, p) == [x == Zeros(|x|)] && Eval(env, q) == [y == Zeros(|x|)]
    ensures Eval(env, BvAnd(p, q)) == [Or(x, y) == Zeros(|x|)]
  {
    BitFits(p, q);
    BvAndMeans(env, p, q);
    AndBits(x == Zeros(|x|), y == Zeros(|x|));
    OrIsZero(x, y);
  }
}
