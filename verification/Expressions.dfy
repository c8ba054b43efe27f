/** Bit vector expressions of `expr.hpp`: what they denote, and the constructors `extract` and `concat`. */
module Expressions {
  import opened BitVectors

  datatype Expr =
    | Constant(width: nat, value: nat)
    | Variable(width: nat, name: nat)
    | Concatenation(a: Expr, b: Expr)          // `a` is the high part
    | Extraction(hi: nat, lo: nat, e: Expr)
    | Binary(op: Op, a: Expr, b: Expr)

  /** The kinds of `bvbinary` that matter here. A comparison has one bit, set if both sides are equal. */
  datatype Op = Oring | Anding | ShiftingL | ShiftingR | Adding | Comparing

  function Width(e: Expr): nat {
    match e
    case Constant(w, _) => w
    case Variable(w, _) => w
    case Concatenation(a, b) => Width(a) + Width(b)
    case Extraction(hi, lo, _) => if lo <= hi then hi - lo + 1 else 0
    case Binary(op, a, _) => if op.Comparing? then 1 else Width(a)
  }

  /** What the template parameters enforce. */
  predicate Typed(e: Expr) {
    match e
    case Constant(w, v) => 1 <= w <= 64 && v < Pow(w)
    case Variable(w, _) => 1 <= w
    case Concatenation(a, b) => Typed(a) && Typed(b)
    case Extraction(hi, lo, e') => Typed(e') && lo <= hi < Width(e')
    case Binary(_, a, b) => Typed(a) && Typed(b) && Width(a) == Width(b)
  }

  type Term = e: Expr | Typed(e) witness Constant(1, 0)

  lemma {:induction false} WidthPositive(e: Term)
    ensures Width(e) >= 1
  {
    match e
    case Concatenation(a, b) => WidthPositive(a);
    case Binary(_, a, _) => WidthPositive(a);
    case _ =>
  }

  function Apply(op: Op, x: Bitseq, y: Bitseq): (r: Bitseq)
    requires |x| == |y|
    ensures |r| == if op.Comparing? then 1 else |x|
  {
    match op
    case Oring => Or(x, y)
    case Anding => And(x, y)
    case ShiftingL => ShiftL(x, Value(y))
    case ShiftingR => ShiftR(x, Value(y))
    case Adding => Add(x, y, false)
    case Comparing => [x == y]
  }

  type Env = (nat, nat) -> nat

  /** The value of an expression, given those of the variables. */
  function Eval(env: Env, e: Term): (r: Bitseq)
    ensures |r| == Width(e)
  {
    match e
    case Constant(w, v) => ToBits(w, v)
    case Variable(w, n) => ToBits(w, env(w, n))
    case Concatenation(a, b) => Eval(env, b) + Eval(env, a)
    case Extraction(hi, lo, e') => Eval(env, e')[lo..hi + 1]
    case Binary(op, a, b) => Apply(op, Eval(env, a), Eval(env, b))
  }

  /** `expr::constant<W>`. */
  function Const(w: nat, v: nat): (r: Term)
    requires 1 <= w <= 64
    ensures Width(r) == w
  {
    Constant(w, Mask(w, v))
  }

  // Extraction and concatenation call each other; these numbers go down.

  /** Leaves and concatenations. */
  ghost function Nodes(e: Term): (n: nat)
    ensures n >= 1
  {
    match e
    case Concatenation(a, b) => Nodes(a) + Nodes(b) + 1
    case Extraction(_, _, e') => Nodes(e')
    case _ => 1
  }

  /** All but the low 32 bits: such an extraction is never split. */
  predicate Top(hi: nat, lo: nat, e: Term) { lo == 32 && hi == Width(e) - 1 && hi > lo }

  ghost function Budget(hi: nat, lo: nat, e: Term): int {
    2 * Nodes(e) + if Top(hi, lo, e) then -1 else 1
  }

  predicate Piece(n: nat) { n == 8 || n == 16 || n == 24 }

  /** `ExtractConcatLeft`: only the high part is needed. */
  predicate InHigh(lo: nat, b: nat, o: nat) {
    (Piece(o) || o == 33) && lo >= o && b % 8 == 0 && b <= 64
  }

  /** `ExtractConcatLeft`: both parts are needed. */
  predicate InBoth(hi: nat, lo: nat, b: nat, o: nat) {
    && (Piece(o) || o == 33) && hi >= o && lo < o
    && ((b % 8 == 0 && b <= 64 && o % 8 == 0) || (b == 65 && lo == 0))
  }

  /** `ExtractExtractLeft`: an extraction from the top of something. */
  predicate FromTop(hi: nat, lo: nat, b: nat, o: nat) {
    && (Piece(o) || o == 32 || o == 33) && 255 - b > o
    && ((hi == lo && hi == b - 1 && b % 32 == 1) || (b % 8 == 0 && b <= 32))
  }

  /** `ConcatMergeConstants`. */
  predicate Merges(a: nat, b: nat, x: nat) {
    && (x == 1 || Piece(x) || x == 18)
    && a + b <= 64 && b > x && (a + b) % 8 >= 1
    && ((a % 8 == 0 && b % 8 == 0 && a <= 32) || a == 1 || a == 31)
  }

  /** `expr::extract<hi,lo>`. */
  function Extract(hi: nat, lo: nat, e: Term): (r: Term)
    requires lo <= hi < Width(e)
    ensures Width(r) == hi - lo + 1 && Nodes(r) <= Nodes(e)
    decreases Budget(hi, lo, e), 0, e, 1
  {
    if e.Constant? then Const(hi - lo + 1, Shifted(e.value, lo))
    else if lo == 0 && hi + 1 == Width(e) then e
    else if e.Concatenation? then ExtractConcatenation(hi, lo, e)
    else if e.Extraction? then ExtractExtraction(hi, lo, e)
    else Extraction(hi, lo, e)
  }

  datatype Part = High | Low | Both | Whole

  /** Which part of a concatenation the bits are taken from, by the first rule that applies. */
  function PartOf(hi: nat, lo: nat, e: Term): (p: Part)
    requires lo <= hi < Width(e) && e.Concatenation?
    ensures p == High ==> lo >= Width(e.b)
    ensures p == Low ==> hi < Width(e.b)
    ensures p == Both ==> lo < Width(e.b) <= hi && !Top(hi, lo, e)
  {
    var w, o := Width(e), Width(e.b);
    if o == lo then High
    else if o == hi + 1 then Low
    else if InHigh(lo, w, o) then High
    else if InBoth(hi, lo, w, o) then Both
    else if Piece(Width(e.a)) && w - hi - 1 >= Width(e.a) && w <= 64 then Low
    else Whole
  }

  function ExtractConcatenation(hi: nat, lo: nat, e: Term): (r: Term)
    requires lo <= hi < Width(e) && e.Concatenation?
    ensures Width(r) == hi - lo + 1 && Nodes(r) <= Nodes(e)
    decreases Budget(hi, lo, e), 0, e, 0
  {
    var o := Width(e.b);
    match PartOf(hi, lo, e)
    case High => Extract(hi - o, lo - o, e.a)
    case Low => Extract(hi, lo, e.b)
    case Both => Concat(Extract(hi - o, 0, e.a), Extract(o - 1, lo, e.b))
    case Whole => Extraction(hi, lo, e)
  }

  /** The bits are taken from what the inner extraction takes its bits from. */
  predicate Through(hi: nat, lo: nat, e: Term)
    requires lo <= hi < Width(e) && e.Extraction?
  {
    var w := Width(e);
    var o := Width(e.e) - w;
    || (e.lo == o && FromTop(hi, lo, w, o))
    || (e.lo == 0 && Piece(o) && 255 - w > o && w % 8 == 0 && w <= 32)
  }

  function ExtractExtraction(hi: nat, lo: nat, e: Term): (r: Term)
    requires lo <= hi < Width(e) && e.Extraction? && !(lo == 0 && hi + 1 == Width(e))
    ensures Width(r) == hi - lo + 1 && Nodes(r) <= Nodes(e)
    decreases Budget(hi, lo, e), 0, e, 0
  {
    if Through(hi, lo, e) then Extract(hi + e.lo, lo + e.lo, e.e) else Extraction(hi, lo, e)
  }

  /** `expr::concat`. */
  function Concat(a: Term, b: Term): (r: Term)
    ensures Width(r) == Width(a) + Width(b) && Nodes(r) <= Nodes(a) + Nodes(b) + 1
    decreases 2 * (Nodes(a) + Nodes(b) + 1), Nodes(a), b, 1
  {
    if a.Constant? then ConcatConstant(a, b)
    else if a.Concatenation? && Width(a.a) == 8 then Concat(a.a, Concat(a.b, b))
    else Concatenation(a, b)
  }

  datatype Join = Fold | Merge | Pull | Keep

  /** What becomes of a constant in front of `b`, by the first rule that applies. */
  function JoinOf(a: Term, b: Term): (j: Join)
    requires a.Constant?
    ensures j == Fold ==> b.Constant? && Width(a) + Width(b) <= 64
    ensures j == Merge ==> b.Concatenation? && b.a.Constant? && Width(a) + Width(b.a) <= 64
    ensures j == Pull ==> b.Extraction? && b.lo == 32 && b.hi == Width(b.e) - 1
  {
    var wa, wb := Width(a), Width(b);
    if b.Constant? && wa + wb <= 64 then Fold
    else if b.Concatenation? && b.a.Constant? && Merges(wa, wb, Width(b.a)) then Merge
    else if b.Extraction? && b.lo == 32 && b.hi == Width(b.e) - 1 && 32 + wa + wb <= 65 then Pull
    else Keep
  }

  /** `(a << |b|) + b` of two constants. */
  function Joined(a: Term, b: Term): (r: Term)
    requires a.Constant? && b.Constant? && Width(a) + Width(b) <= 64
    ensures r.Constant? && Width(r) == Width(a) + Width(b)
  {
    Const(Width(a) + Width(b), ShiftedUp(a.value, Width(b)) + b.value)
  }

  function ConcatConstant(a: Term, b: Term): (r: Term)
    requires a.Constant?
    ensures Width(r) == Width(a) + Width(b) && Nodes(r) <= Nodes(a) + Nodes(b) + 1
    decreases 2 * (Nodes(a) + Nodes(b) + 1), Nodes(a), b, 0
  {
    match JoinOf(a, b)
    case Fold => Joined(a, b)
    case Merge => Concat(Joined(a, b.a), b.b)
    case Pull => Extract(31 + Width(a) + Width(b), 32, Concat(a, b.e))
    case Keep => Concatenation(a, b)
  }
}
