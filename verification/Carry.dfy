/** Two-word arithmetic: `alu_op::plus`, `minus` and their carry forms, and the branches on their flags.

The carry flag is kept as the operation it came from, so that the next operation and the branches can look
at the operands instead of one bit. Operands are plain words, not pointers. */
module Carry {

  const WORD: nat := 0x1_0000_0000
  const LONG: nat := 0x1_0000_0000_0000_0000

  /** The flag C: a bit, or the carry of an addition or subtraction of 32 or 64 bits. */
  datatype CarryFlag =
    | Bit(on: bool)
    | AddCarry(long: bool, a: nat, b: nat)
    | SubCarry(long: bool, a: nat, b: nat)

  /** The result and the flags N, V and C. */
  datatype Result = Result(dst: nat, n: bool, v: bool, c: CarryFlag)

  function BitOf(c: CarryFlag): nat {
    match c
    case Bit(b) => if b then 1 else 0
    case AddCarry(long, a, b) => if a + b >= (if long then LONG else WORD) then 1 else 0
    case SubCarry(_, a, b) => if a >= b then 1 else 0
  }

  function Sign(w: nat): bool { w / 0x8000_0000 % 2 == 1 }

  function Assign(dst: nat, v: bool, c: CarryFlag): Result { Result(dst, Sign(dst), v, c) }

  /** `plus::calculate`. */
  function Plus(a: nat, b: nat): Result {
    var extended := (a + b) % (2 * WORD);
    var dst := (a + b) % WORD;
    Assign(dst, (extended / WORD == 1) != Sign(dst), AddCarry(false, a, b))
  }

  /** `plus_carry::calculate`. */
  function PlusCarry(a: nat, b: nat, c: CarryFlag): Result {
    if c.AddCarry? && !c.long then
      var fa, fb := a * WORD + c.a, b * WORD + c.b;
      var dst := (fa + fb) % LONG / WORD;
      var extended := (fa + fb) % (2 * LONG) / WORD;
      Assign(dst, (extended / WORD == 1) != Sign(dst), AddCarry(true, fa, fb))
    else
      var extended := (a + b + BitOf(c)) % (2 * WORD);
      var dst := (a + b + BitOf(c)) % WORD;
      Assign(dst, (extended / WORD == 1) != Sign(dst), AddCarry(false, (a + b) % WORD, BitOf(c)))
  }

  /** The overflow flag of both subtractions. */
  function Overflow(a: nat, b: nat, dst: nat): bool {
    (Sign(a) != Sign(b)) && !(Sign(b) != Sign(dst))
  }

  /** `minus::calculate`. */
  function Minus(a: nat, b: nat): Result {
    var dst := (a - b) % WORD;
    Assign(dst, Overflow(a, b, dst), SubCarry(false, a, b))
  }

  /** `minus_carry::calculate`. */
  function MinusCarry(a: nat, b: nat, c: CarryFlag): Result {
    if c.SubCarry? && !c.long then
      var fa, fb := a * WORD + c.a, b * WORD + c.b;
      var dst := (fa - fb) % LONG / WORD;
      Assign(dst, Overflow(a, b, dst), SubCarry(true, fa, fb))
    else
      var dst := (a - b - BitOf(c)) % WORD;
      Assign(dst, Overflow(a, b, dst), SubCarry(false, (a - b) % WORD, BitOf(c)))
  }

  // The branches.

  /** `bcc::check`. */
  predicate Bcc(c: CarryFlag) {
    match c
    case SubCarry(_, a, b) => a < b
    case AddCarry(long, a, b) =>
      (a + b) / (if long then LONG else WORD) % 2 == 0
    case Bit(b) => !b
  }

  /** `bcs::check`. */
  predicate Bcs(c: CarryFlag) {
    match c
    case SubCarry(_, a, b) => a >= b
    case AddCarry(long, a, b) =>
      (a + b) / (if long then LONG else WORD) % 2 == 1
    case Bit(b) => b
  }

  /** `blt::check` and `bge::check`. */
  predicate Blt(r: Result) { !(r.n == r.v) }

  predicate Bge(r: Result) { r.n == r.v }

  // What they mean.

  function Signed(w: nat): int { if w < WORD / 2 then w else w - WORD }

  function SignedLong(x: nat): int { if x < LONG / 2 then x else x - LONG }

  function Join(h: nat, l: nat): nat { h * WORD + l }

  predicate IsWord(w: nat) { w < WORD }

  lemma {:induction false} SignWord(w: nat)
    requires IsWord(w)
    ensures Sign(w) <==> w >= WORD / 2
  {
  }

  /** After `-`, bcc and bcs decide the unsigned order, blt and bge the signed one. */
  lemma {:induction false} MinusOrders(a: nat, b: nat)
    requires IsWord(a) && IsWord(b)
    ensures var r := Minus(a, b);
      && r.dst == (a - b) % WORD
      && (Bcc(r.c) <==> a < b) && (Bcs(r.c) <==> a >= b)
      && (Blt(r) <==> Signed(a) < Signed(b)) && (Bge(r) <==> Signed(a) >= Signed(b))
  {
    var d := if a >= b then a - b else a - b + WORD;
    assert (a - b) % WORD == d;
    SignWord(a);
    SignWord(b);
    SignWord(d);
  }

  /** The high word of a difference. */
  lemma {:induction false} HighDifference(xh: nat, xl: nat, yh: nat, yl: nat)
    requires IsWord(xh) && IsWord(xl) && IsWord(yh) && IsWord(yl)
    ensures var d := xh - yh - if xl < yl then 1 else 0;
      (Join(xh, xl) - Join(yh, yl)) % LONG / WORD == if d >= 0 then d else d + WORD
    ensures (Join(xh, xl) - Join(yh, yl)) % LONG % WORD == (xl - yl) % WORD
  {
    var h := xh - yh - if xl < yl then 1 else 0;
    var l := if xl < yl then xl - yl + WORD else xl - yl;
    assert Join(xh, xl) - Join(yh, yl) == h * WORD + l;
    var h' := if h >= 0 then h else h + WORD;
    assert (h * WORD + l) % LONG == h' * WORD + l;
  }

  /** `-` on the low words and `-carry` on the high ones subtract 64-bit numbers. */
  lemma {:induction false} MinusChain(xh: nat, xl: nat, yh: nat, yl: nat)
    requires IsWord(xh) && IsWord(xl) && IsWord(yh) && IsWord(yl)
    ensures var lo := Minus(xl, yl);
      var hi := MinusCarry(xh, yh, lo.c);
      Join(hi.dst, lo.dst) == (Join(xh, xl) - Join(yh, yl)) % LONG
  {
    HighDifference(xh, xl, yh, yl);
  }

  /** And then bcc and bcs decide the unsigned order of the 64-bit numbers. */
  lemma {:induction false} MinusChainUnsigned(xh: nat, xl: nat, yh: nat, yl: nat)
    requires IsWord(xh) && IsWord(xl) && IsWord(yh) && IsWord(yl)
    ensures var hi := MinusCarry(xh, yh, Minus(xl, yl).c);
      && (Bcc(hi.c) <==> Join(xh, xl) < Join(yh, yl))
      && (Bcs(hi.c) <==> !Bcc(hi.c))
  {
  }

  /** And blt and bge the signed order. */
  lemma {:induction false} MinusChainSigned(xh: nat, xl: nat, yh: nat, yl: nat)
    requires IsWord(xh) && IsWord(xl) && IsWord(yh) && IsWord(yl)
    ensures var hi := MinusCarry(xh, yh, Minus(xl, yl).c);
      && (Blt(hi) <==> SignedLong(Join(xh, xl)) < SignedLong(Join(yh, yl)))
      && (Bge(hi) <==> !Blt(hi))
  {
    HighDifference(xh, xl, yh, yl);
    SignWord(xh);
    SignWord(yh);
    var d := xh - yh - if xl < yl then 1 else 0;
    SignWord(if d >= 0 then d else d + WORD);
  }

  /** `+` on the low words and `+carry` on the high ones add 64-bit numbers; bcs tells whether it overflowed. */
  lemma {:induction false} PlusChain(xh: nat, xl: nat, yh: nat, yl: nat)
    requires IsWord(xh) && IsWord(xl) && IsWord(yh) && IsWord(yl)
    ensures var lo := Plus(xl, yl);
      var hi := PlusCarry(xh, yh, lo.c);
      && Join(hi.dst, lo.dst) == (Join(xh, xl) + Join(yh, yl)) % LONG
      && (Bcs(hi.c) <==> Join(xh, xl) + Join(yh, yl) >= LONG)
      && (Bcc(hi.c) <==> !Bcs(hi.c))
  {
    HighSum(xh, xl, yh, yl);
  }

  lemma {:induction false} HighSum(xh: nat, xl: nat, yh: nat, yl: nat)
    requires IsWord(xh) && IsWord(xl) && IsWord(yh) && IsWord(yl)
    ensures var s := Join(xh, xl) + Join(yh, yl);
      && s % LONG % WORD == (xl + yl) % WORD
      && (s / LONG % 2 == 1 <==> s >= LONG) && (s / LONG % 2 == 0 <==> s < LONG)
  {
    var s := Join(xh, xl) + Join(yh, yl);
    var l := if xl + yl >= WORD then xl + yl - WORD else xl + yl;
    var h := xh + yh + if xl + yl >= WORD then 1 else 0;
    var h' := if h >= WORD then h - WORD else h;
    assert s == h * WORD + l;
    assert s % LONG == h' * WORD + l;
  }

  /** After `+` alone bcs tells whether 32 bits overflowed. */
  lemma {:induction false} PlusCarries(a: nat, b: nat)
    requires IsWord(a) && IsWord(b)
    ensures (Bcs(Plus(a, b).c) <==> a + b >= WORD) && (Bcc(Plus(a, b).c) <==> !Bcs(Plus(a, b).c))
  {
  }

  // Any carry, whatever it came from.

  predicate IsFlag(c: CarryFlag) {
    match c
    case Bit(_) => true
    case AddCarry(long, a, b) => if long then a < LONG && b < LONG else IsWord(a) && IsWord(b)
    case SubCarry(long, a, b) => if long then a < LONG && b < LONG else IsWord(a) && IsWord(b)
  }

  function Set(c: CarryFlag): nat { if Bcs(c) then 1 else 0 }

  function Clear(c: CarryFlag): nat { if Bcc(c) then 1 else 0 }

  predicate Fits(x: int) { -0x8000_0000 <= x < 0x8000_0000 }

  lemma {:induction false} FlagBit(c: CarryFlag)
    requires IsFlag(c)
    ensures BitOf(c) == Set(c) == 1 - Clear(c)
  {
    if c.AddCarry? {
      var w, s := if c.long then LONG else WORD, c.a + c.b;
      assert s / w == if s >= w then 1 else 0;
    }
  }

  /** The parts of the sum of two words and a carry. */
  lemma {:induction false} SumParts(a: nat, b: nat, x: nat)
    requires IsWord(a) && IsWord(b) && x <= 1
    ensures (a + b + x) % WORD == if a + b + x >= WORD then a + b + x - WORD else a + b + x
    ensures (a + b + x) % (2 * WORD) / WORD == if a + b + x >= WORD then 1 else 0
  {
  }

  /** So are those of the high words, when the low ones are added too. */
  lemma {:induction false} LongParts(a: nat, b: nat, c: nat, d: nat)
    requires IsWord(a) && IsWord(b) && IsWord(c) && IsWord(d)
    ensures var x := if c + d >= WORD then 1 else 0;
      var s := Join(a, c) + Join(b, d);
      && s % LONG / WORD == (a + b + x) % WORD
      && s % (2 * LONG) / WORD == a + b + x
      && (s / LONG % 2 == 1 <==> a + b + x >= WORD)
  {
    var x := if c + d >= WORD then 1 else 0;
    var h, l := a + b + x, c + d - x * WORD;
    assert Join(a, c) + Join(b, d) == h * WORD + l;
    HighPart(h, l);
  }

  lemma {:induction false} HighPart(h: nat, l: nat)
    requires h < 2 * WORD && IsWord(l)
    ensures var s := h * WORD + l;
      s % LONG / WORD == h % WORD && s % (2 * LONG) / WORD == h && (s / LONG % 2 == 1 <==> h >= WORD)
  {
    var h' := if h >= WORD then h - WORD else h;
    assert (h * WORD + l) % LONG == h' * WORD + l;
    assert h % WORD == h';
    assert (h' * WORD + l) / WORD == h' && (h * WORD + l) / WORD == h;
  }

  /** Every carry is added, and the V flag tells signed overflow exactly if both operands have the same sign. */
  lemma {:induction false} PlusCarryExact(a: nat, b: nat, c: CarryFlag)
    requires IsWord(a) && IsWord(b) && IsFlag(c)
    ensures var r := PlusCarry(a, b, c);
      && r.dst == (a + b + Set(c)) % WORD
      && ((r.v <==> !Fits(Signed(a) + Signed(b) + Set(c))) <==> Sign(a) == Sign(b))
  {
    FlagBit(c);
    var x := Set(c);
    SumParts(a, b, x);
    if c.AddCarry? && !c.long {
      LongParts(a, b, c.a, c.b);
    }
    AddOverflow(a, b, x);
  }

  /** So it is after `+`. */
  lemma {:induction false} PlusExact(a: nat, b: nat)
    requires IsWord(a) && IsWord(b)
    ensures var r := Plus(a, b);
      && r.dst == (a + b) % WORD
      && ((r.v <==> !Fits(Signed(a) + Signed(b))) <==> Sign(a) == Sign(b))
  {
    SumParts(a, b, 0);
    AddOverflow(a, b, 0);
  }

  lemma {:induction false} AddOverflow(a: nat, b: nat, x: nat)
    requires IsWord(a) && IsWord(b) && x <= 1
    ensures var high := a + b + x >= WORD;
      var dst := if high then a + b + x - WORD else a + b + x;
      ((high != Sign(dst)) <==> !Fits(Signed(a) + Signed(b) + x)) <==> Sign(a) == Sign(b)
  {
    SignWord(a);
    SignWord(b);
    SignWord(if a + b + x >= WORD then a + b + x - WORD else a + b + x);
  }

  /** The carry after it is right exactly if the one before came from an addition of 32 bits or the operands alone
  do not overflow. */
  lemma {:induction false} PlusCarryOut(a: nat, b: nat, c: CarryFlag)
    requires IsWord(a) && IsWord(b) && IsFlag(c)
    ensures var r := PlusCarry(a, b, c);
      && (Bcc(r.c) <==> !Bcs(r.c))
      && ((Bcs(r.c) <==> a + b + Set(c) >= WORD) <==> (c.AddCarry? && !c.long) || a + b < WORD)
  {
    FlagBit(c);
    if c.AddCarry? && !c.long {
      LongParts(a, b, c.a, c.b);
      HighSum(a, c.a, b, c.b);
    } else {
      SumParts(a, b, 0);
      SumParts((a + b) % WORD, Set(c), 0);
    }
  }

  /** What `-carry` subtracts besides: one if there was a borrow, but for any other carry one if it is set. */
  function Taken(c: CarryFlag): nat {
    if c.SubCarry? && !c.long then Clear(c) else Set(c)
  }

  /** The borrow is subtracted exactly if the carry is that of a subtraction of 32 bits; in any case the V flag
  tells signed overflow. */
  lemma {:induction false} MinusCarryExact(a: nat, b: nat, c: CarryFlag)
    requires IsWord(a) && IsWord(b) && IsFlag(c)
    ensures var r := MinusCarry(a, b, c);
      && r.dst == (a - b - Taken(c)) % WORD
      && (r.dst == (a - b - Clear(c)) % WORD <==> c.SubCarry? && !c.long)
      && (r.v <==> !Fits(Signed(a) - Signed(b) - Taken(c)))
  {
    FlagBit(c);
    DifferenceParts(a, b, Set(c));
    DifferenceParts(a, b, Clear(c));
    if c.SubCarry? && !c.long {
      HighDifference(a, c.a, b, c.b);
    }
    SubOverflow(a, b, Taken(c));
  }

  lemma {:induction false} DifferenceParts(a: nat, b: nat, x: nat)
    requires IsWord(a) && IsWord(b) && x <= 1
    ensures (a - b - x) % WORD == if a - b - x >= 0 then a - b - x else a - b - x + WORD
  {
  }

  lemma {:induction false} SubOverflow(a: nat, b: nat, x: nat)
    requires IsWord(a) && IsWord(b) && x <= 1
    ensures var dst := if a - b - x >= 0 then a - b - x else a - b - x + WORD;
      Overflow(a, b, dst) <==> !Fits(Signed(a) - Signed(b) - x)
  {
    SignWord(a);
    SignWord(b);
    SignWord(if a - b - x >= 0 then a - b - x else a - b - x + WORD);
  }

  /** The borrow after it is right exactly if the carry was such or the operands alone need none. */
  lemma {:induction false} MinusCarryOut(a: nat, b: nat, c: CarryFlag)
    requires IsWord(a) && IsWord(b) && IsFlag(c)
    ensures var r := MinusCarry(a, b, c);
      && (Bcc(r.c) <==> !Bcs(r.c))
      && ((Bcc(r.c) <==> a - b - Taken(c) < 0) <==> (c.SubCarry? && !c.long) || a >= b)
  {
    FlagBit(c);
    DifferenceParts(a, b, 0);
  }
}
