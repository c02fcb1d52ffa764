/** The intermediate representation: operations, types, functions and the block tree. */
module Ir {
  import opened Memory

  const INT: nat := 0  // TYPE_INT_ID

  type TypeId = nat

  datatype Op =
    | Null(tag: nat)  // does nothing; its payload is free, so it can serve as a probe
    | Call(fn: nat) | CallNative
    | Assign | Calc(a: Arith) | BitNot
    | Drop(n: nat)
    | PushVar(v: nat) | PushArg(i: nat) | PushGlobal(g: nat)
    | ArrPush | ArrAt | ArrDrop
    | SliceFromAr | SliceFromOne | SliceAt | SliceInc | SliceDec
    | StructAt(field: nat)

  datatype Sig = Sig(outs: seq<TypeId>, ins: seq<TypeId>)

  datatype Field = Field(tid: TypeId, offset: nat)

  datatype Kind =
    | KInt | KByte
    | KArray(elem: TypeId, capacity: nat, dataOffset: nat)
    | KSlice(elem: TypeId)
    | KView(elem: TypeId)
    | KStruct(fields: seq<Field>)
    | KNative(sig: Sig)

  /** A type whose layout has been computed. */
  datatype Type = Type(kind: Kind, payload: nat, size: nat)

  /** The tree of blocks. The children of a MANY block hang on a chain of links, as they
      do in the block array: the chain ends, goes on, or runs into something that is not
      a CHAIN block. `Stray` is a CHAIN block where a block to run was expected, and
      `Missing` an index outside the block array. */
  datatype Tree =
    | Basic(ops: seq<Op>)
    | Defer(next: Tree, cleanup: Tree)
    | Many(kids: Chain)
    | SoftCrash
    | HardCrash
    | CrashPad(body: Tree, pad: Tree)
    | Branch(cond: seq<Op>, yes: Tree, no: Tree)
    | Loop(body: Tree)
    | Break(level: nat)
    | Var(v: nat, body: Tree)
    | Stray
    | Missing

  datatype Chain = End | Link(cur: Tree, rest: Chain) | BadLink

  datatype Func = Func(sig: Sig, types: seq<Type>, vars: seq<TypeId>, body: Tree)

  datatype Global = Global(tid: TypeId, isNull: bool)

  datatype NativeOut = NativeOk(mem: Mem) | NativeSoft(code: VmResult, mem: Mem) | NativeHard | NativeWild

  /** Native callbacks are opaque: a function of the callback, the memory and the
      parameter stack. */
  type Native = (nat, Mem, seq<Ptr>) -> NativeOut

  datatype Program = Program(funcs: seq<Func>, globals: seq<Global>, native: Native)

  function Argc(s: Sig): nat { |s.outs| + |s.ins| }

  // ----- sizes, for termination -----

  function Size(t: Tree): (n: nat)
    ensures n > 0
  {
    match t
    case Defer(next, cleanup) => 1 + Size(next) + Size(cleanup)
    case Many(kids) => 1 + ChainSize(kids)
    case CrashPad(body, pad) => 1 + Size(body) + Size(pad)
    case Branch(_, yes, no) => 1 + Size(yes) + Size(no)
    case Loop(body) => 1 + Size(body)
    case Var(_, body) => 1 + Size(body)
    case _ => 1
  }

  function ChainSize(ch: Chain): (n: nat)
    ensures n > 0
  {
    match ch
    case Link(cur, rest) => 1 + Size(cur) + ChainSize(rest)
    case _ => 1
  }

  // ----- which breaks leave a tree -----

  /** Every break in t leaves at most n scopes around t. Scopes are MANY, VAR and LOOP,
      and DEFER, which is lowered to a MANY. */
  predicate Escapes(t: Tree, n: nat)
    decreases Size(t)
  {
    match t
    case Break(level) => level <= n
    case Defer(next, cleanup) => Escapes(next, n + 1) && Escapes(cleanup, n + 1)
    case Many(kids) => ChainEscapes(kids, n + 1)
    case CrashPad(body, pad) => Escapes(body, n) && Escapes(pad, n)
    case Branch(_, yes, no) => Escapes(yes, n) && Escapes(no, n)
    case Loop(body) => Escapes(body, n + 1)
    case Var(_, body) => Escapes(body, n + 1)
    case _ => true
  }

  predicate ChainEscapes(ch: Chain, n: nat)
    decreases ChainSize(ch)
  {
    match ch
    case Link(cur, rest) => Escapes(cur, n) && ChainEscapes(rest, n)
    case _ => true
  }

  /** No break in t leaves t: what the IR demands of a defer body. */
  predicate Closed(t: Tree) { Escapes(t, 0) }

  // ----- which variables a tree pushes -----

  function OpVars(ops: seq<Op>): set<nat> {
    set op | op in ops && op.PushVar? :: op.v
  }

  function Uses(t: Tree): set<nat>
    decreases Size(t)
  {
    match t
    case Basic(ops) => OpVars(ops)
    case Defer(next, cleanup) => Uses(next) + Uses(cleanup)
    case Many(kids) => ChainUses(kids)
    case CrashPad(body, pad) => Uses(body) + Uses(pad)
    case Branch(cond, yes, no) => OpVars(cond) + Uses(yes) + Uses(no)
    case Loop(body) => Uses(body)
    case Var(_, body) => Uses(body)
    case _ => {}
  }

  function ChainUses(ch: Chain): set<nat>
    decreases ChainSize(ch)
  {
    match ch
    case Link(cur, rest) => Uses(cur) + ChainUses(rest)
    case _ => {}
  }
}
