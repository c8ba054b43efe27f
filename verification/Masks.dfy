/** The constructor for and with its rules for masks, one of which looks at one byte of the mask only. */
module Masks {
  import opened BitVectors
  import opened Expressions
  import opened Simplify
  import opened Operators

  function Ones(n: nat): (r: Bitseq)
    ensures |r| == n
  {
    seq(n, _ => true)
  }

  predicate AllOnes(e: Term) { e.Constant? && e.width < 64 && e.value == Pow(e.width) - 1 }

  datatype Field = NoField | Field(hi: nat, lo: nat)

  /** The mask keeps the bits from `lo` to `hi`: up to some bit, or from some bit to the top. */
  predicate IsField(w: nat, v: nat, hi: nat, lo: nat) {
    lo <= hi && if lo == 0 then hi + 1 < w && v == Pow(hi + 1) - 1 else w == hi + 1 && v == Pow(hi + 1) - Pow(lo)
  }

  /** `BVAndExtract`, in the instances that are tried; one of them on the left only. */
  function FieldOf(w: nat, v: nat, left: bool): (f: Field)
    ensures f.Field? ==> IsField(w, v, f.hi, f.lo)
  {
    if left && IsField(w, v, 13, 0) then Field(13, 0)
    else if IsField(w, v, 7, 0) then Field(7, 0)
    else if IsField(w, v, 15, 0) then Field(15, 0)
    else if IsField(w, v, 15, 8) then Field(15, 8)
    else if IsField(w, v, 23, 0) then Field(23, 0)
    else if IsField(w, v, 23, 8) then Field(23, 8)
    else if IsField(w, v, 23, 16) then Field(23, 16)
    else if IsField(w, v, 31, 0) then Field(31, 0)
    else if IsField(w, v, 31, 8) then Field(31, 8)
    else if IsField(w, v, 31, 16) then Field(31, 16)
    else if IsField(w, v, 31, 24) then Field(31, 24)
    else NoField
  }

  function Keep(b: Term, hi: nat, lo: nat): (r: Term)
    requires lo <= hi < Width(b) <= 64 && (lo > 0 ==> hi + 1 == Width(b)) && (lo == 0 ==> hi + 1 < Width(b))
    ensures Width(r) == Width(b)
  {
    if lo == 0 then Extend(Width(b) - hi - 1, Extract(hi, 0, b))
    else Concat(Extract(hi, lo, b), Const(lo, 0))
  }

  /** `BVAndPullConcat`: eight bits of the mask are zero, from where the high part of `b` begins. */
  predicate ByteClear(c: Term, b: Term) {
    c.Constant? && Split(b) && Width(c) == Width(b) && Mask(8, Shifted(c.value, Width(b.b))) == 0
  }

  /** `expr::bvand`. */
  function BvAnd(a: Term, b: Term): (r: Term)
    requires Width(a) == Width(b)
    ensures Width(r) == Width(a)
    decreases Width(a), 1
  {
    if a.Constant? && b.Constant? then FromBits(And(ToBits(a.width, a.value), ToBits(b.width, b.value)))
    else if AllOnes(a) then b
    else if AllOnes(b) then a
    else if a.Constant? && FieldOf(a.width, a.value, true).Field? then
      var f := FieldOf(a.width, a.value, true);
      Keep(b, f.hi, f.lo)
    else if b.Constant? && FieldOf(b.width, b.value, false).Field? then
      var f := FieldOf(b.width, b.value, false);
      Keep(a, f.hi, f.lo)
    else if ByteClear(a, b) then Pull(a, b)
    else if ByteClear(b, a) then Pull(b, a)
    else Binary(Anding, a, b)
  }

  /** The high part is dropped. */
  function Pull(c: Term, b: Term): (r: Term)
    requires ByteClear(c, b)
    ensures Width(r) == Width(b)
    decreases Width(b), 0
  {
    WidthPositive(b.b);
    Extend(Width(b.a), BvAnd(Const(Width(b.b), c.value), b.b))
  }

  /** Wherever a high part is dropped, the mask has no bit there. */
  predicate Fits(a: Term, b: Term)
    requires Width(a) == Width(b)
    decreases Width(a), 1
  {
    if (a.Constant? && b.Constant?) || AllOnes(a) || AllOnes(b) then true
    else if a.Constant? && FieldOf(a.width, a.value, true).Field? then true
    else if b.Constant? && FieldOf(b.width, b.value, false).Field? then true
    else if ByteClear(a, b) then FitsPull(a, b)
    else if ByteClear(b, a) then FitsPull(b, a)
    else true
  }

  predicate FitsPull(c: Term, b: Term)
    requires ByteClear(c, b)
    decreases Width(b), 0
  {
    WidthPositive(b.b);
    Shifted(c.value, Width(b.b)) == 0 && Fits(Const(Width(b.b), c.value), b.b)
  }

  /** What the mask keeps of the high part that is dropped. */
  ghost function Dropped(env: Env, c: Term, b: Term): Bitseq
    requires ByteClear(c, b)
  {
    And(ToBits(Width(b.a), Shifted(c.value, Width(b.b))), Eval(env, b.a))
  }

  /** Wherever a high part is dropped, it is zero under the mask in this environment. */
  ghost predicate FitsIn(env: Env, a: Term, b: Term)
    requires Width(a) == Width(b)
    decreases Width(a), 1
  {
    if (a.Constant? && b.Constant?) || AllOnes(a) || AllOnes(b) then true
    else if a.Constant? && FieldOf(a.width, a.value, true).Field? then true
    else if b.Constant? && FieldOf(b.width, b.value, false).Field? then true
    else if ByteClear(a, b) then FitsPullIn(env, a, b)
    else if ByteClear(b, a) then FitsPullIn(env, b, a)
    else true
  }

  ghost predicate FitsPullIn(env: Env, c: Term, b: Term)
    requires ByteClear(c, b)
    decreases Width(b), 0
  {
    WidthPositive(b.b);
    Dropped(env, c, b) == Zeros(Width(b.a)) && FitsIn(env, Const(Width(b.b), c.value), b.b)
  }

  // Bits.

  lemma {:induction false} AndSwap(x: Bitseq, y: Bitseq)
    requires |x| == |y|
    ensures And(x, y) == And(y, x)
  {
  }

  lemma {:induction false} AndOnes(x: Bitseq)
    ensures And(Ones(|x|), x) == x
  {
  }

  lemma {:induction false} OnesBits(w: nat, n: nat)
    requires n <= w
    ensures Pow(n) - 1 >= 0 && ToBits(w, Pow(n) - 1) == Ones(n) + Zeros(w - n)
  {
    if n == 0 {
      ToBitsZero(w);
    } else {
      OnesBits(w - 1, n - 1);
      assert (Pow(n) - 1) / 2 == Pow(n - 1) - 1;
      assert Ones(n) + Zeros(w - n) == [true] + (Ones(n - 1) + Zeros(w - n));
    }
  }

  lemma {:induction false} TopOnesBits(w: nat, lo: nat)
    requires lo <= w
    ensures Pow(w) >= Pow(lo) && ToBits(w, Pow(w) - Pow(lo)) == Zeros(lo) + Ones(w - lo)
  {
    if lo == 0 {
      OnesBits(w, w);
    } else {
      TopOnesBits(w - 1, lo - 1);
      assert (Pow(w) - Pow(lo)) / 2 == Pow(w - 1) - Pow(lo - 1);
      assert Zeros(lo) + Ones(w - lo) == [false] + (Zeros(lo - 1) + Ones(w - lo));
    }
  }

  lemma {:induction false} AllOnesMeans(env: Env, e: Term)
    requires AllOnes(e)
    ensures Eval(env, e) == Ones(Width(e))
  {
    OnesBits(e.width, e.width);
  }

  lemma {:induction false} AndLowField(x: Bitseq, n: nat)
    requires n <= |x|
    ensures And(Ones(n) + Zeros(|x| - n), x) == x[0..n] + Zeros(|x| - n)
  {
  }

  lemma {:induction false} AndHighField(x: Bitseq, n: nat)
    requires n <= |x|
    ensures And(Zeros(n) + Ones(|x| - n), x) == Zeros(n) + x[n..|x|]
  {
  }

  /** A mask that is a field is an extraction. */
  lemma {:induction false} KeepMeans(env: Env, c: Term, b: Term, hi: nat, lo: nat)
    requires c.Constant? && Width(c) == Width(b) && IsField(c.width, c.value, hi, lo)
    ensures Eval(env, Keep(b, hi, lo)) == And(Eval(env, c), Eval(env, b))
  {
    KeepIs(b, hi, lo);
    if lo == 0 {
      KeepLowMeans(env, c, b, hi);
    } else {
      KeepHighMeans(env, c, b, lo);
    }
  }

  lemma {:induction false} KeepIs(b: Term, hi: nat, lo: nat)
    requires lo <= hi < Width(b) <= 64 && (lo > 0 ==> hi + 1 == Width(b)) && (lo == 0 ==> hi + 1 < Width(b))
    ensures lo == 0 ==> Keep(b, hi, lo) == Extend(Width(b) - hi - 1, Extract(hi, 0, b))
    ensures lo > 0 ==> Keep(b, hi, lo) == Concat(Extract(Width(b) - 1, lo, b), Const(lo, 0))
  {
  }

  lemma {:induction false} KeepLowMeans(env: Env, c: Term, b: Term, hi: nat)
    requires c.Constant? && Width(c) == Width(b) && IsField(c.width, c.value, hi, 0)
    ensures Eval(env, Extend(Width(b) - hi - 1, Extract(hi, 0, b))) == And(Eval(env, c), Eval(env, b))
  {
    ExtractMeans(env, hi, 0, b);
    ExtendedMeans(env, Width(b) - hi - 1, Extract(hi, 0, b), Eval(env, b)[0..hi + 1]);
    MaskLow(env, c, b, hi);
  }

  lemma {:induction false} MaskLow(env: Env, c: Term, b: Term, hi: nat)
    requires c.Constant? && Width(c) == Width(b) && IsField(c.width, c.value, hi, 0)
    ensures And(Eval(env, c), Eval(env, b)) == Eval(env, b)[0..hi + 1] + Zeros(Width(b) - hi - 1)
  {
    OnesBits(Width(b), hi + 1);
    AndLowField(Eval(env, b), hi + 1);
  }

  lemma {:induction false} KeepHighMeans(env: Env, c: Term, b: Term, lo: nat)
    requires c.Constant? && Width(c) == Width(b) && lo > 0 && IsField(c.width, c.value, Width(b) - 1, lo)
    ensures Eval(env, Concat(Extract(Width(b) - 1, lo, b), Const(lo, 0))) == And(Eval(env, c), Eval(env, b))
  {
    ExtractMeans(env, Width(b) - 1, lo, b);
    TailMeans(env, Extract(Width(b) - 1, lo, b), lo);
    MaskHigh(env, c, b, lo);
  }

  lemma {:induction false} MaskHigh(env: Env, c: Term, b: Term, lo: nat)
    requires c.Constant? && Width(c) == Width(b) && lo > 0 && IsField(c.width, c.value, Width(b) - 1, lo)
    ensures And(Eval(env, c), Eval(env, b)) == Zeros(lo) + Eval(env, b)[lo..Width(b) - 1 + 1]
  {
    TopOnesBits(Width(b), lo);
    AndHighField(Eval(env, b), lo);
  }

  lemma {:induction false} AndConcat(x: Bitseq, x': Bitseq, y: Bitseq, y': Bitseq)
    requires |x| == |y| && |x'| == |y'|
    ensures And(x + x', y + y') == And(x, y) + And(x', y')
  {
  }

  lemma {:induction false} AndZeros(x: Bitseq)
    ensures And(Zeros(|x|), x) == Zeros(|x|)
  {
  }

  /** The low and the high bits of a constant. */
  lemma {:induction false} ToBitsParts(l: nat, h: nat, v: nat)
    ensures ToBits(l + h, v) == ToBits(l, v) + ToBits(h, Shifted(v, l))
  {
    if l > 0 {
      ToBitsParts(l - 1, h, v / 2);
      assert ToBits(l, v) + ToBits(h, Shifted(v, l))
          == [v % 2 == 1] + (ToBits(l - 1, v / 2) + ToBits(h, Shifted(v, l)));
    }
  }

  /** `bvand` denotes the bitwise and exactly if what is dropped is zero under the mask. */
  lemma {:induction false} BvAndExact(env: Env, a: Term, b: Term)
    requires Width(a) == Width(b)
    ensures Eval(env, BvAnd(a, b)) == And(Eval(env, a), Eval(env, b)) <==> FitsIn(env, a, b)
    decreases Width(a), 1
  {
    if a.Constant? && b.Constant? {
      FromBitsMeans(env, And(ToBits(a.width, a.value), ToBits(b.width, b.value)));
    } else if AllOnes(a) {
      AllOnesMeans(env, a);
      AndOnes(Eval(env, b));
    } else if AllOnes(b) {
      AllOnesMeans(env, b);
      AndOnes(Eval(env, a));
      AndSwap(Eval(env, a), Eval(env, b));
    } else {
      BvAndIs(a, b);
      RestExact(env, a, b);
    }
  }

  lemma {:induction false} FieldLeft(env: Env, a: Term, b: Term)
    requires Width(a) == Width(b) && a.Constant? && FieldOf(a.width, a.value, true).Field?
    ensures Eval(env, Rest(a, b)) == And(Eval(env, a), Eval(env, b))
  {
    var f := FieldOf(a.width, a.value, true);
    KeepMeans(env, a, b, f.hi, f.lo);
  }

  lemma {:induction false} FieldRight(env: Env, a: Term, b: Term)
    requires Width(a) == Width(b) && b.Constant? && FieldOf(b.width, b.value, false).Field?
    requires a.Constant? ==> FieldOf(a.width, a.value, true).NoField?
    ensures Eval(env, Rest(a, b)) == And(Eval(env, a), Eval(env, b))
  {
    var f := FieldOf(b.width, b.value, false);
    KeepMeans(env, b, a, f.hi, f.lo);
    AndSwap(Eval(env, a), Eval(env, b));
  }

  /** None of the rules for constants, ones and fields applies. */
  predicate NoMask(a: Term, b: Term) {
    && !(a.Constant? && b.Constant?) && !AllOnes(a) && !AllOnes(b)
    && (a.Constant? ==> FieldOf(a.width, a.value, true).NoField?)
    && (b.Constant? ==> FieldOf(b.width, b.value, false).NoField?)
  }

  lemma {:induction false} RestExact(env: Env, a: Term, b: Term)
    requires Width(a) == Width(b) && !(a.Constant? && b.Constant?) && !AllOnes(a) && !AllOnes(b)
    ensures Eval(env, Rest(a, b)) == And(Eval(env, a), Eval(env, b)) <==> FitsIn(env, a, b)
    decreases Width(a), 0, 2
  {
    if a.Constant? && FieldOf(a.width, a.value, true).Field? {
      FieldLeft(env, a, b);
    } else if b.Constant? && FieldOf(b.width, b.value, false).Field? {
      FieldRight(env, a, b);
    } else {
      assert NoMask(a, b);
      OtherExact(env, a, b);
    }
  }

  lemma {:induction false} OtherExact(env: Env, a: Term, b: Term)
    requires Width(a) == Width(b) && NoMask(a, b)
    ensures Eval(env, Rest(a, b)) == And(Eval(env, a), Eval(env, b)) <==> FitsIn(env, a, b)
    decreases Width(a), 0, 1
  {
    OtherIs(env, a, b);
    if ByteClear(a, b) {
      PullExact(env, a, b);
    } else if ByteClear(b, a) {
      PullExact(env, b, a);
      AndSwap(Eval(env, a), Eval(env, b));
    } else {
      AndingMeans(env, a, b);
    }
  }

  lemma {:induction false} AndingMeans(env: Env, a: Term, b: Term)
    requires Width(a) == Width(b)
    ensures Eval(env, Binary(Anding, a, b)) == And(Eval(env, a), Eval(env, b))
  {
  }

  lemma {:induction false} OtherIs(env: Env, a: Term, b: Term)
    requires Width(a) == Width(b) && NoMask(a, b)
    ensures Rest(a, b) ==
      if ByteClear(a, b) then Pull(a, b) else if ByteClear(b, a) then Pull(b, a) else Binary(Anding, a, b)
    ensures FitsIn(env, a, b) <==>
      if ByteClear(a, b) then FitsPullIn(env, a, b) else if ByteClear(b, a) then FitsPullIn(env, b, a) else true
  {
  }

  /** The rules behind those for two constants and for a mask of ones. */
  function Rest(a: Term, b: Term): Term
    requires Width(a) == Width(b)
  {
    var f, g := if a.Constant? then FieldOf(a.width, a.value, true) else NoField,
                if b.Constant? then FieldOf(b.width, b.value, false) else NoField;
    if f.Field? then Keep(b, f.hi, f.lo)
    else if g.Field? then Keep(a, g.hi, g.lo)
    else if ByteClear(a, b) then Pull(a, b)
    else if ByteClear(b, a) then Pull(b, a)
    else Binary(Anding, a, b)
  }

  lemma {:induction false} BvAndIs(a: Term, b: Term)
    requires Width(a) == Width(b) && !(a.Constant? && b.Constant?) && !AllOnes(a) && !AllOnes(b)
    ensures BvAnd(a, b) == Rest(a, b)
  {
  }

  lemma {:induction false} PullExact(env: Env, c: Term, b: Term)
    requires ByteClear(c, b)
    ensures Eval(env, Pull(c, b)) == And(Eval(env, c), Eval(env, b)) <==> FitsPullIn(env, c, b)
    decreases Width(b), 0, 0
  {
    WidthPositive(b.b);
    var low := Const(Width(b.b), c.value);
    BvAndExact(env, low, b.b);
    ConstMeans(env, Width(b.b), c.value);
    PullShape(env, c, b);
    AndParts(env, c, b);
    PartsEqual(Eval(env, BvAnd(low, b.b)), And(ToBits(Width(b.b), c.value), Eval(env, b.b)),
               Zeros(Width(b.a)), Dropped(env, c, b));
  }

  lemma {:induction false} PartsEqual(p: Bitseq, q: Bitseq, x: Bitseq, y: Bitseq)
    requires |p| == |q|
    ensures p + x == q + y <==> p == q && x == y
  {
    assert (p + x)[..|p|] == p && (q + y)[..|p|] == q && (p + x)[|p|..] == x && (q + y)[|p|..] == y;
  }

  /** If no mask has a bit in what is dropped, that is always so. */
  lemma {:induction false} BvAndMeans(env: Env, a: Term, b: Term)
    requires Width(a) == Width(b) && Fits(a, b)
    ensures Eval(env, BvAnd(a, b)) == And(Eval(env, a), Eval(env, b))
  {
    FitsAlways(env, a, b);
    BvAndExact(env, a, b);
  }

  lemma {:induction false} FitsAlways(env: Env, a: Term, b: Term)
    requires Width(a) == Width(b) && Fits(a, b)
    ensures FitsIn(env, a, b)
    decreases Width(a), 1
  {
    if (a.Constant? && b.Constant?) || AllOnes(a) || AllOnes(b) {
    } else if a.Constant? && FieldOf(a.width, a.value, true).Field? {
    } else if b.Constant? && FieldOf(b.width, b.value, false).Field? {
    } else if ByteClear(a, b) {
      FitsPullAlways(env, a, b);
    } else if ByteClear(b, a) {
      FitsPullAlways(env, b, a);
    }
  }

  lemma {:induction false} FitsPullAlways(env: Env, c: Term, b: Term)
    requires ByteClear(c, b) && FitsPull(c, b)
    ensures FitsPullIn(env, c, b)
    decreases Width(b), 0
  {
    WidthPositive(b.b);
    FitsAlways(env, Const(Width(b.b), c.value), b.b);
    ToBitsZero(Width(b.a));
    AndZeros(Eval(env, b.a));
  }

  /** And where a mask has a bit in a dropped part that is a variable, some environment loses it. */
  lemma {:induction false} PullLosesBits(c: Term, b: Term) returns (env: Env)
    requires ByteClear(c, b) && b.a.Variable? && Shifted(c.value, Width(b.b)) > 0
    ensures !FitsPullIn(env, c, b) && Eval(env, Pull(c, b)) != And(Eval(env, c), Eval(env, b))
  {
    env := (w, n) => Pow(w) - 1;
    HighSet(c, b);
    VariableOnes(env, b.a);
    var x := ToBits(Width(b.a), Shifted(c.value, Width(b.b)));
    AndOnes(x);
    AndSwap(Ones(Width(b.a)), x);
    PullExact(env, c, b);
  }

  /** So does `bvand` itself, if no other rule applies to the mask. */
  lemma {:induction false} AndLosesBits(c: Term, b: Term) returns (env: Env)
    requires ByteClear(c, b) && !AllOnes(c) && FieldOf(c.width, c.value, true).NoField?
    requires b.a.Variable? && Shifted(c.value, Width(b.b)) > 0
    ensures !FitsIn(env, c, b) && Eval(env, BvAnd(c, b)) != And(Eval(env, c), Eval(env, b))
  {
    BvAndIs(c, b);
    env := PullLosesBits(c, b);
  }

  lemma {:induction false} PullShape(env: Env, c: Term, b: Term)
    requires ByteClear(c, b)
    ensures 1 <= Width(b.b) <= 64
    ensures Eval(env, Pull(c, b)) == Eval(env, BvAnd(Const(Width(b.b), c.value), b.b)) + Zeros(Width(b.a))
  {
    WidthPositive(b.b);
    ExtendMeans(env, Width(b.a), BvAnd(Const(Width(b.b), c.value), b.b));
  }

  lemma {:induction false} AndParts(env: Env, c: Term, b: Term)
    requires c.Constant? && b.Concatenation? && Width(c) == Width(b)
    ensures And(Eval(env, c), Eval(env, b)) == And(ToBits(Width(b.b), c.value), Eval(env, b.b))
      + And(ToBits(Width(b.a), Shifted(c.value, Width(b.b))), Eval(env, b.a))
  {
    ToBitsParts(Width(b.b), Width(b.a), c.value);
    AndConcat(ToBits(Width(b.b), c.value), ToBits(Width(b.a), Shifted(c.value, Width(b.b))), Eval(env, b.b),
              Eval(env, b.a));
  }

  lemma {:induction false} HighSet(c: Term, b: Term)
    requires c.Constant? && b.Concatenation? && Width(c) == Width(b) && Shifted(c.value, Width(b.b)) > 0
    ensures ToBits(Width(b.a), Shifted(c.value, Width(b.b))) != Zeros(Width(b.a))
  {
    ShiftedBelow(Width(b.b), Width(b.a), c.value);
    MaskSmall(Width(b.a), Shifted(c.value, Width(b.b)));
    ZerosValue(Width(b.a));
  }

  lemma {:induction false} VariableOnes(env: Env, e: Term)
    requires e.Variable? && env(e.width, e.name) == Pow(e.width) - 1
    ensures Eval(env, e) == Ones(Width(e))
  {
    OnesBits(e.width, e.width);
  }

  lemma {:induction false} ShiftedBelow(l: nat, h: nat, v: nat)
    requires v < Pow(l + h)
    ensures Shifted(v, l) < Pow(h)
  {
    if l > 0 {
      ShiftedBelow(l - 1, h, v / 2);
    }
  }

  lemma {:induction false} ZerosValue(n: nat)
    ensures Value(Zeros(n)) == 0
  {
    if n > 0 {
      assert Zeros(n)[1..] == Zeros(n - 1);
      ZerosValue(n - 1);
    }
  }
}
