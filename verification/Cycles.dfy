/** The cycle cost model (`state::perf`, `state::perf::info` and the counters of `state::exec`).

Branches and waiting memory accesses cost more or less depending on how long ago the
condition codes were written and the last memory access was issued. The exact simulation
of a path knows these distances; the static analysis only has lower bounds for them. */
module Cycles {

  /** What the cost model distinguishes. A memory access that swaps the context waits for its
  result; `wide` ones use a 40 bit address; `operands` is the cost of the dearer one of two. */
  datatype Instr = Fin | Branch | Jump | Mem(swap: bool, wide: bool, operands: nat) | Other(cost: nat, writescc: bool)
  {
    /** `instr::cycles`: the cost, for a waiting memory access the least one. */
    function MinCost(): nat {
      match this
      case Fin => 0
      case Branch => COST_FALSE
      case Jump => COST_TRUE
      case Mem(swap, _, operands) => operands + if swap then COST_SWAP_MIN else COST_NOSWAP_MIN
      case Other(cost, _) => cost
    }

    function MaxCost(): nat {
      if this.Mem? then if wide then COST_40BIT_MAX else COST_32BIT_MAX else MinCost()
    }

    predicate WritesCC() { this.Fin? || (this.Other? && writescc) }
  }

  const COST_TRUE_EARLY: nat := 3
  const COST_TRUE: nat := 4
  const COST_FALSE: nat := 1
  const COST_NOSWAP_MIN: nat := 1
  const COST_SWAP_MIN: nat := 3
  const COST_32BIT_MAX: nat := 16
  const COST_40BIT_MAX: nat := 25
  const UINT_MAX: nat := 0xFFFF_FFFF

  /** Cycles since the condition codes were written and since the last memory access. */
  datatype Info = Info(sincecc: nat, sincemem: nat)

  const NO_INFO := Info(UINT_MAX, UINT_MAX)

  function Cycles(n: Instr, i: Info, taken: bool): nat
  {
    match n
    case Branch =>
      if !taken then COST_FALSE else if i.sincecc > 0 then COST_TRUE_EARLY else COST_TRUE
    case Mem(swap, _, _) =>
      if !swap || i.sincemem >= n.MaxCost() - n.MinCost() then n.MinCost() else n.MaxCost() - i.sincemem
    case _ => n.MinCost()
  }

  /** What an instruction may take, after the distances `d`. A waiting access is over when its latency has passed
  since the access before it, 25 cycles with a 40 bit address and 16 with a 32 bit one, but takes at least 3 cycles
  and its operands; a taken branch is a cycle faster if the condition codes were written before the last cycle. */
  predicate Takes(n: Instr, d: Info, taken: bool, c: nat) {
    match n
    case Fin => c == 0
    case Jump => c == 4
    case Branch => c == if !taken then 1 else if d.sincecc == 0 then 4 else 3
    case Other(cost, _) => c == cost
    case Mem(false, _, operands) => c == 1 + operands
    case Mem(true, wide, operands) =>
      var latency := if wide then 25 else 16;
      c >= 3 + operands && d.sincemem + c >= latency && (c == 3 + operands || d.sincemem + c == latency)
  }

  lemma {:induction false} CyclesTaken(n: Instr, d: Info, taken: bool, c: nat)
    ensures Takes(n, d, taken, c) <==> c == Cycles(n, d, taken)
  {
  }

  /** `info::apply`; the analysis calls it with `taken` false, whatever the branch does later. */
  function Advance(i: Info, n: Instr, taken: bool): Info
  {
    var c := Cycles(n, i, taken);
    Info(if n.WritesCC() then 0 else i.sincecc + c, if n.Mem? then 0 else i.sincemem + c)
  }

  /** `info::merge`. */
  function Merge(a: Info, b: Info): (r: Info)
    ensures Leq(r, a) && Leq(r, b)
    ensures forall c :: Leq(c, a) && Leq(c, b) ==> Leq(c, r)
  {
    Info(if a.sincecc < b.sincecc then a.sincecc else b.sincecc,
         if a.sincemem < b.sincemem then a.sincemem else b.sincemem)
  }

  predicate Leq(a: Info, b: Info) {
    a.sincecc <= b.sincecc && a.sincemem <= b.sincemem
  }

  /** `a` describes the exact distances `x` safely. A smaller distance to the condition codes is no
  lower bound once an overestimated cost has entered it, so only its sign is compared. */
  predicate Safe(a: Info, x: Info) {
    a.sincemem <= x.sincemem && (a.sincecc > 0 ==> x.sincecc > 0)
  }

  lemma {:induction false} SafeBelow(a: Info, b: Info, x: Info)
    requires Leq(a, b) && Safe(b, x)
    ensures Safe(a, x)
  {
  }

  /** A safe description never underestimates a cost. */
  lemma {:induction false} SafeCost(n: Instr, a: Info, x: Info, taken: bool)
    requires Safe(a, x)
    ensures Cycles(n, a, taken) >= Cycles(n, x, taken)
  {
  }

  /** A safe description stays safe, although it is advanced as if no branch were taken. */
  lemma {:induction false} SafeAdvance(n: Instr, a: Info, x: Info, taken: bool)
    requires Safe(a, x)
    ensures Safe(Advance(a, n, false), Advance(x, n, taken))
  {
  }

  /** Comparing the distances to the condition codes themselves would not work: after a waiting access
  the description can be farther from the condition codes than the exact simulation. */
  lemma {:induction false} NotPointwise()
    ensures exists n, a, x :: Leq(a, x) && Safe(a, x) && !Leq(Advance(a, n, false), Advance(x, n, false))
  {
    var n := Mem(true, false, 0);
    var a, x := Info(5, 0), Info(5, 20);
    assert Advance(a, n, false) == Info(21, 0) && Advance(x, n, false) == Info(8, 0);
  }

  // ---------------------------------------------------------------------------
  // The counters of a path

  datatype Counters = Counters(maxCycles: nat, cycles: nat, lastmem: nat, lastcc: nat)
  {
    predicate Valid() { lastmem <= cycles && lastcc <= cycles }

    function Exact(): Info
      requires Valid()
    {
      Info(cycles - lastcc, cycles - lastmem)
    }
  }

  function Count(s: Counters, n: Instr, i: Info, taken: bool): (r: Counters)
    requires s.Valid()
    ensures r.Valid() && r.Exact() == Advance(s.Exact(), n, taken)
  {
    var c := s.cycles + Cycles(n, s.Exact(), taken);
    Counters(
      s.maxCycles + Cycles(n, i, taken),
      c,
      if n.Mem? then c else s.lastmem,
      if n.WritesCC() then c else s.lastcc)
  }

  /** The counters of `state::exec`. */
  class Exec {
    var sumMaxCycles: nat
    var sumCycles: nat
    var lastMem: nat
    var lastCC: nat

    ghost function Contents(): Counters
      reads this
    {
      Counters(sumMaxCycles, sumCycles, lastMem, lastCC)
    }

    constructor (cycles: nat)
      ensures Contents() == Counters(cycles, cycles, cycles, cycles)
    {
      sumMaxCycles, sumCycles, lastMem, lastCC := cycles, cycles, cycles, cycles;
    }

    /** The counting part of `exec::apply`. A description that is safe for the state before the
    instruction keeps the overestimate above the exact count and is safe again after it. */
    method Apply(n: Instr, i: Info, taken: bool)
      requires Contents().Valid()
      modifies this
      ensures Contents() == Count(old(Contents()), n, i, taken)
      ensures sumCycles >= old(sumCycles) && Takes(n, old(Contents()).Exact(), taken, sumCycles - old(sumCycles))
      ensures sumMaxCycles >= old(sumMaxCycles) && Takes(n, i, taken, sumMaxCycles - old(sumMaxCycles))
      ensures lastMem == if n.Mem? then sumCycles else old(lastMem)
      ensures lastCC == if n.Fin? || (n.Other? && n.writescc) then sumCycles else old(lastCC)
      ensures Safe(i, old(Contents()).Exact()) ==>
        && Contents().maxCycles - Contents().cycles >= old(Contents()).maxCycles - old(Contents()).cycles
        && Safe(Advance(i, n, false), Contents().Exact())
    {
      Counted(Contents(), n, i, taken);
      var d := Info(sumCycles - lastCC, sumCycles - lastMem);
      sumMaxCycles := sumMaxCycles + Cycles(n, i, taken);
      sumCycles := sumCycles + Cycles(n, d, taken);
      if n.Mem? {
        lastMem := sumCycles;
      }
      if n.WritesCC() {
        lastCC := sumCycles;
      }
    }
  }

  lemma {:induction false} Counted(s: Counters, n: Instr, i: Info, taken: bool)
    requires s.Valid()
    ensures var r := Count(s, n, i, taken);
      && r.cycles >= s.cycles && Takes(n, s.Exact(), taken, r.cycles - s.cycles)
      && r.maxCycles >= s.maxCycles && Takes(n, i, taken, r.maxCycles - s.maxCycles)
      && (Safe(i, s.Exact()) ==>
            r.maxCycles - r.cycles >= s.maxCycles - s.cycles && Safe(Advance(i, n, false), r.Exact()))
  {
    SafeWhenever(n, i, s.Exact(), taken);
    CyclesTaken(n, i, taken, Cycles(n, i, taken));
    CyclesTaken(n, s.Exact(), taken, Cycles(n, s.Exact(), taken));
  }

  lemma {:induction false} SafeWhenever(n: Instr, a: Info, x: Info, taken: bool)
    ensures Safe(a, x) ==>
      && Cycles(n, a, taken) >= Cycles(n, x, taken)
      && Safe(Advance(a, n, false), Advance(x, n, taken))
  {
    if Safe(a, x) {
      SafeCost(n, a, x, taken);
      SafeAdvance(n, a, x, taken);
    }
  }
}
