/** `expr::select` and `expr::store`: memory whose constant offsets are kept in a map. */
module Memory {
  import opened BitVectors
  import opened Expressions
  import opened Operators

  datatype Cells =
    | ArrayVariable(name: nat)
    | Storing(memory: Cells, offset: Term, value: Term)
    | ConcreteStoring(memory: Cells, cells: map<nat, Term>)

  datatype Selected = Stored(value: Term) | Selection(memory: Cells, offset: Term)

  /** `expr::select`. */
  function Select(memory: Cells, offset: Term): Selected {
    if memory.ConcreteStoring? && offset.Constant? then
      if offset.value in memory.cells then Stored(memory.cells[offset.value]) else Selection(memory.memory, offset)
    else Selection(memory, offset)
  }

  /** `expr::store`. */
  function Store(memory: Cells, offset: Term, value: Term): Cells {
    if !offset.Constant? then Storing(memory, offset, value)
    else if memory.ConcreteStoring? then ConcreteStoring(memory.memory, memory.cells[offset.value := value])
    else ConcreteStoring(memory, map[offset.value := value])
  }

  /** What the array variables hold, by name and offset. */
  type Contents = (nat, nat) -> Bitseq

  function Read(env: Env, mem: Contents, memory: Cells, o: nat): Bitseq {
    match memory
    case ArrayVariable(n) => mem(n, o)
    case Storing(a, offset, v) => if Value(Eval(env, offset)) == o then Eval(env, v) else Read(env, mem, a, o)
    case ConcreteStoring(a, cells) => if o in cells then Eval(env, cells[o]) else Read(env, mem, a, o)
  }

  function ReadSelected(env: Env, mem: Contents, s: Selected): Bitseq {
    match s
    case Stored(v) => Eval(env, v)
    case Selection(a, offset) => Read(env, mem, a, Value(Eval(env, offset)))
  }

  datatype Write = Write(offset: Term, value: Term)

  /** What a sequence of `store`s builds. */
  function Stores(base: Cells, writes: seq<Write>): Cells {
    if writes == [] then base
    else
      var w := writes[|writes| - 1];
      Store(Stores(base, writes[..|writes| - 1]), w.offset, w.value)
  }

  /** What memory holds after a sequence of writes: the last one to the offset counts. */
  function Latest(env: Env, mem: Contents, base: Cells, writes: seq<Write>, o: nat): Bitseq {
    if writes == [] then Read(env, mem, base, o)
    else
      var w := writes[|writes| - 1];
      if Value(Eval(env, w.offset)) == o then Eval(env, w.value)
      else Latest(env, mem, base, writes[..|writes| - 1], o)
  }

  lemma {:induction false} StoreReads(env: Env, mem: Contents, memory: Cells, offset: Term, value: Term, o: nat)
    ensures Read(env, mem, Store(memory, offset, value), o)
      == if Value(Eval(env, offset)) == o then Eval(env, value) else Read(env, mem, memory, o)
  {
    if offset.Constant? {
      ConstantValue(env, offset);
    }
  }

  lemma {:induction false} StoresRead(env: Env, mem: Contents, base: Cells, writes: seq<Write>, o: nat)
    ensures Read(env, mem, Stores(base, writes), o) == Latest(env, mem, base, writes, o)
  {
    if writes != [] {
      var w, before := writes[|writes| - 1], writes[..|writes| - 1];
      StoresRead(env, mem, base, before, o);
      StoreReads(env, mem, Stores(base, before), w.offset, w.value, o);
    }
  }

  /** After any writes, a read gives what was written there last, whatever the offsets turn out to be. */
  lemma {:induction false} SelectAfterStores(env: Env, mem: Contents, base: Cells, writes: seq<Write>, offset: Term)
    ensures ReadSelected(env, mem, Select(Stores(base, writes), offset))
      == Latest(env, mem, base, writes, Value(Eval(env, offset)))
  {
    StoresRead(env, mem, base, writes, Value(Eval(env, offset)));
    if offset.Constant? {
      ConstantValue(env, offset);
    }
  }
}
