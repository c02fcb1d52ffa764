/** What a block tree does: a big-step semantics in which DEFER has its meaning directly.
    The state is the memory, the parameter stack and the first crash code; the type
    stack of a basic block is kept beside it, because operations are typed. `fuel` bounds
    the depth of calls and the number of iterations of each loop; a run that needs more is
    a `Timeout`. */
module Semantics {
  import opened Memory
  import opened Ir

  /** `ans` is the code of the first soft crash of the run, VM_OK if there was none.
      `log` lists the probes (OP_NULL operations) passed so far; nothing reads it. */
  datatype Data = Data(mem: Mem, params: seq<Ptr>, ans: VmResult, log: seq<nat>)

  type pos = n: int | 0 < n witness 1

  datatype Outcome =
    | Normal
    | Leaving(level: pos)   // a break that still has `level` scopes to leave
    | Crashed               // a soft crash looking for a pad
    | HardCrashed
    | Fault(r: VmResult)    // the machine stops with this result
    | Stuck                 // the tree breaks a static rule of the IR
    | Torn                  // a cleanup that was being run for a break soft-crashed
    | Timeout

  datatype Res = Res(out: Outcome, d: Data)

  /** The result of operations, with the types of what they leave on the stack. */
  datatype OpRes = OpRes(out: Outcome, d: Data, tys: seq<TypeId>)

  type Env = map<nat, nat>  // from live variables to their storage offset

  /** One activation of a function: its index and the bottom of its arguments. */
  datatype Act = Act(fn: nat, argBase: nat)

  // ----- small pieces of state change -----

  function Crashing(d: Data, code: VmResult): Data {
    if d.ans == VM_OK then d.(ans := code) else d
  }

  function Cut(d: Data, n: nat): Data {
    if n <= |d.mem.storage| then d.(mem := d.mem.(storage := d.mem.storage[..n])) else d
  }

  function CutParams(d: Data, n: nat): Data {
    if n <= |d.params| then d.(params := d.params[..n]) else d
  }

  /** n fresh cells of one kind at the end of the storage. */
  function Grow(d: Data, n: nat, cell: Cell): Data {
    d.(mem := d.mem.(storage := d.mem.storage + seq(n, i => cell)))
  }

  function Top(d: Data): Ptr
    requires |d.params| >= 1
  {
    d.params[|d.params| - 1]
  }

  function Second(d: Data): Ptr
    requires |d.params| >= 2
  {
    d.params[|d.params| - 2]
  }

  function Pop(d: Data, n: nat): Data
    requires n <= |d.params|
  {
    d.(params := d.params[..|d.params| - n])
  }

  function Push(d: Data, p: Ptr): Data {
    d.(params := d.params + [p])
  }

  /** Leaving a scope that was entered with n bytes of storage. */
  function Leave(r: Res, n: nat): Res {
    match r.out
    case Leaving(level) =>
      if level == 1 then Res(Normal, Cut(r.d, n))
      else Res(Leaving(level - 1), r.d)
    case _ => r
  }

  // ----- operations that do not call -----

  function LastTypes(tys: seq<TypeId>, n: nat): seq<TypeId>
    requires n <= |tys|
  {
    tys[|tys| - n..]
  }

  function Done(m: Option<Mem>, d: Data, tys: seq<TypeId>): OpRes {
    match m
    case None => OpRes(Fault(UNDEFINED), d, tys)
    case Some(mem) => OpRes(Normal, d.(mem := mem), tys)
  }

  /** An element index is an int64 that the machine narrows to 32 bits before it compares
      it with the bounds, but uses in full to compute the address. */
  predicate IndexRefused(idx: int, len: nat) {
    idx < 0 || idx % TWO32 >= len
  }

  function OpPush(globals: seq<Global>, f: Func, a: Act, env: Env, op: Op, tys: seq<TypeId>, d: Data): OpRes
    requires op.PushVar? || op.PushArg? || op.PushGlobal?
  {
    match op
    case PushVar(v) =>
      if v < |f.vars| && v in env
      then OpRes(Normal, Push(d, Stor(env[v])), tys + [f.vars[v]])
      else OpRes(Stuck, d, tys)
    case PushArg(i) =>
      if i >= |f.vars| || f.vars[i] >= |f.types| then OpRes(Stuck, d, tys)
      else if a.argBase + i >= |d.params| then OpRes(Fault(VM_INVALID_ARG), d, tys)
      else OpRes(Normal, Push(d, d.params[a.argBase + i]), tys + [f.vars[i]])
    case PushGlobal(g) =>
      if g >= |globals| || globals[g].tid >= |f.types| then OpRes(Stuck, d, tys)
      else if globals[g].isNull then OpRes(Fault(VM_NULL_GLOBAL), d, tys)
      else OpRes(Normal, Push(d, Glob(g, 0)), tys + [globals[g].tid])
  }

  function OpValue(types: seq<Type>, op: Op, tys: seq<TypeId>, d: Data): OpRes
    requires op.Assign? || op.Calc? || op.BitNot?
  {
    if op.BitNot? then
      if |tys| < 1 || |d.params| < 1 || LastTypes(tys, 1) != [INT] then OpRes(Stuck, d, tys) else
      match LoadNum(d.mem, Top(d))
      case None => OpRes(Fault(UNDEFINED), d, tys)
      case Some(x) => Done(StoreNum(d.mem, Top(d), -1 - x), d, tys)
    else if |tys| < 2 || |d.params| < 2 then OpRes(Stuck, d, tys) else
    var dst, src, rest := Second(d), Top(d), tys[..|tys| - 1];
    var tid := tys[|tys| - 1];
    if tys[|tys| - 2] != tid then OpRes(Stuck, d, tys)
    else if op.Assign? then
      if tid >= |types| then OpRes(Stuck, d, tys) else
      match Load(d.mem, src, types[tid].payload)
      case None => OpRes(Fault(UNDEFINED), d, tys)
      case Some(cells) => Done(Store(d.mem, dst, cells), Pop(d, 1), rest)
    else if tid != INT then OpRes(Stuck, d, tys)
    else
      match (LoadNum(d.mem, src), LoadNum(d.mem, dst))
      case (Some(r), Some(l)) =>
        if op.a.Div? && r == 0 then OpRes(Crashed, Crashing(Pop(d, 1), VM_DIV_BY_ZERO), rest)
        else if QuotientOverflows(op.a, l, r) then OpRes(Fault(UNDEFINED), d, tys)
        else Done(StoreNum(d.mem, dst, Compute(op.a, l, r)), Pop(d, 1), rest)
      case _ => OpRes(Fault(UNDEFINED), d, tys)
  }

  /** Operations on a fixed-capacity array, laid out as its length and then its elements. */
  function OpArray(types: seq<Type>, op: Op, tys: seq<TypeId>, d: Data): OpRes
    requires op.ArrPush? || op.ArrAt? || op.ArrDrop?
  {
    if |tys| < 2 || |d.params| < 2 then OpRes(Stuck, d, tys) else
    var arrTid, argTid := tys[|tys| - 2], tys[|tys| - 1];
    if arrTid >= |types| || !types[arrTid].kind.KArray? then OpRes(Stuck, d, tys) else
    var KArray(elem, capacity, dataOffset) := types[arrTid].kind;
    if elem >= |types| || argTid != (if op.ArrPush? then elem else INT) then OpRes(Stuck, d, tys) else
    var arr, arg, rest, size := Second(d), Top(d), tys[..|tys| - 1], types[elem].payload;
    match LoadCount(d.mem, arr)
    case None => OpRes(Fault(UNDEFINED), d, tys)
    case Some(len) =>
      if op.ArrPush? then
        if len >= capacity then OpRes(Crashed, Crashing(Pop(d, 1), VM_ARRAY_CAPACITY), rest) else
        match Load(d.mem, arg, size)
        case None => OpRes(Fault(UNDEFINED), d, tys)
        case Some(cells) =>
          match Store(d.mem, Elem(PtrAdd(arr, dataOffset), size, len), cells)
          case None => OpRes(Fault(UNDEFINED), d, tys)
          case Some(mem) => Done(StoreCount(mem, arr, len + 1), Pop(d, 1), rest)
      else
        match LoadNum(d.mem, arg)
        case None => OpRes(Fault(UNDEFINED), d, tys)
        case Some(x) =>
          if op.ArrAt? then
            if IndexRefused(x, len) || IndexRefused(x, capacity)
            then OpRes(Crashed, Crashing(Pop(d, 1), VM_ARRAY_BOUNDS), rest)
            else OpRes(Normal, Push(Pop(d, 2), Elem(PtrAdd(arr, dataOffset), size, x)), tys[..|tys| - 2] + [elem])
          else
            if IndexRefused(x, len + 1)
            then OpRes(Crashed, Crashing(Pop(d, 1), VM_ARRAY_UNDERFLOW), rest)
            else Done(StoreCount(d.mem, arr, len - x % TWO32), Pop(d, 1), rest)
  }

  function StoreSlice(m: Mem, slice: Ptr, to: Ptr, len: nat): Option<Mem> {
    match StorePtr(m, slice, to)
    case None => None
    case Some(n) => StoreCount(n, PtrAdd(slice, SLICE_LEN_OFFSET), len)
  }

  /** Operations on slices and views, laid out as a pointer and then a length. */
  function OpSlice(types: seq<Type>, op: Op, tys: seq<TypeId>, d: Data): OpRes
    requires op.SliceFromAr? || op.SliceFromOne? || op.SliceAt? || op.SliceInc? || op.SliceDec?
  {
    if |tys| < 2 || |d.params| < 2 then OpRes(Stuck, d, tys) else
    var refTid, argTid := tys[|tys| - 2], tys[|tys| - 1];
    if refTid >= |types| then OpRes(Stuck, d, tys) else
    var kind := types[refTid].kind;
    if !(kind.KSlice? || (kind.KView? && (op.SliceFromAr? || op.SliceAt?))) then OpRes(Stuck, d, tys) else
    if kind.elem >= |types| then OpRes(Stuck, d, tys) else
    var slice, arg, rest, size := Second(d), Top(d), tys[..|tys| - 1], types[kind.elem].payload;
    if op.SliceFromAr? then
      if argTid >= |types| || !types[argTid].kind.KArray? || types[argTid].kind.elem != kind.elem
      then OpRes(Stuck, d, tys) else
      match LoadCount(d.mem, arg)
      case None => OpRes(Fault(UNDEFINED), d, tys)
      case Some(len) => Done(StoreSlice(d.mem, slice, PtrAdd(arg, types[argTid].kind.dataOffset), len), Pop(d, 1), rest)
    else if op.SliceFromOne? then
      if argTid != kind.elem then OpRes(Stuck, d, tys)
      else Done(StoreSlice(d.mem, slice, arg, 1), Pop(d, 1), rest)
    else if argTid != INT then OpRes(Stuck, d, tys)
    else
      match LoadNum(d.mem, arg)
      case None => OpRes(Fault(UNDEFINED), d, tys)
      case Some(x) => SliceByNum(op, kind.elem, size, tys, d, x)
  }

  function SliceByNum(op: Op, elem: TypeId, size: nat, tys: seq<TypeId>, d: Data, x: int): OpRes
    requires op.SliceAt? || op.SliceInc? || op.SliceDec?
    requires |tys| >= 2 && |d.params| >= 2
  {
    var slice, rest := Second(d), tys[..|tys| - 1];
    if !op.SliceAt? && x < 0 then OpRes(Crashed, Crashing(Pop(d, 1), VM_ARRAY_BOUNDS), rest) else
    match (LoadPtr(d.mem, slice), LoadCount(d.mem, PtrAdd(slice, SLICE_LEN_OFFSET)))
    case (Some(to), Some(len)) =>
      if IndexRefused(x, if op.SliceAt? then len else len + 1)
      then OpRes(Crashed, Crashing(Pop(d, 1), VM_ARRAY_BOUNDS), rest)
      else if op.SliceAt? then OpRes(Normal, Push(Pop(d, 2), Elem(to, size, x)), tys[..|tys| - 2] + [elem])
      else if op.SliceInc? then Done(StorePtr(d.mem, slice, Elem(to, size, x)), Pop(d, 1), rest)
      else Done(StoreCount(d.mem, PtrAdd(slice, SLICE_LEN_OFFSET), len - x % TWO32), Pop(d, 1), rest)
    case _ => OpRes(Fault(UNDEFINED), d, tys)
  }

  function OpField(types: seq<Type>, field: nat, tys: seq<TypeId>, d: Data): OpRes {
    if |tys| < 1 || |d.params| < 1 then OpRes(Stuck, d, tys) else
    var tid := tys[|tys| - 1];
    if tid >= |types| || !types[tid].kind.KStruct? || field >= |types[tid].kind.fields| then OpRes(Stuck, d, tys) else
    var fld := types[tid].kind.fields[field];
    if fld.tid >= |types| then OpRes(Stuck, d, tys)
    else OpRes(Normal, Push(Pop(d, 1), PtrAdd(Top(d), fld.offset)), tys[..|tys| - 1] + [fld.tid])
  }

  /** The arguments on top of the stack have the types the signature asks for. */
  predicate ArgsFit(sig: Sig, tys: seq<TypeId>) {
    Argc(sig) <= |tys| && LastTypes(tys, Argc(sig)) == sig.outs + sig.ins
  }

  /** Calling into native code that changes the shape of the memory is outside the model. */
  function CallNativeFn(native: Native, id: nat, m: Mem, ps: seq<Ptr>): NativeOut {
    var r := native(id, m, ps);
    if (r.NativeOk? || r.NativeSoft?) && !SameShape(m, r.mem) then NativeWild else r
  }

  function OpNative(native: Native, types: seq<Type>, tys: seq<TypeId>, d: Data): OpRes {
    if |tys| < 1 || |d.params| < |tys| then OpRes(Stuck, d, tys) else
    var tid, below := tys[|tys| - 1], tys[..|tys| - 1];
    if tid >= |types| || !types[tid].kind.KNative? || !ArgsFit(types[tid].kind.sig, below) then OpRes(Stuck, d, tys) else
    var ins := |types[tid].kind.sig.ins|;
    match LoadFn(d.mem, Top(d))
    case None => OpRes(Fault(UNDEFINED), d, tys)
    case Some(None) => OpRes(Fault(VM_NULL_NATIVE_FUNC), d, tys)
    case Some(Some(id)) =>
      match CallNativeFn(native, id, d.mem, Pop(d, 1).params)
      case NativeOk(mem) => OpRes(Normal, Pop(d, 1 + ins).(mem := mem), below[..|below| - ins])
      case NativeSoft(code, mem) =>
        if code == VM_OK then OpRes(Normal, Pop(d, 1 + ins).(mem := mem), below[..|below| - ins])
        else if code == VM_HARD_CRASH then OpRes(HardCrashed, d, tys)
        else OpRes(Crashed, Crashing(Pop(d, 1).(mem := mem), code), below)
      case NativeHard => OpRes(HardCrashed, d, tys)
      case NativeWild => OpRes(Fault(UNDEFINED), d, tys)
  }

  function SimpleOp(p: Program, f: Func, a: Act, env: Env, op: Op, tys: seq<TypeId>, d: Data): OpRes
    requires !op.Call?
  {
    if op.Null? then OpRes(Normal, d.(log := d.log + [op.tag]), tys)
    else if op.CallNative? then OpNative(p.native, f.types, tys, d)
    else if op.Drop? then
      if op.n > |tys| || op.n > |d.params| then OpRes(Stuck, d, tys)
      else OpRes(Normal, Pop(d, op.n), tys[..|tys| - op.n])
    else if op.StructAt? then OpField(f.types, op.field, tys, d)
    else if op.PushVar? || op.PushArg? || op.PushGlobal? then OpPush(p.globals, f, a, env, op, tys, d)
    else if op.Assign? || op.Calc? || op.BitNot? then OpValue(f.types, op, tys, d)
    else if op.ArrPush? || op.ArrAt? || op.ArrDrop? then OpArray(f.types, op, tys, d)
    else OpSlice(f.types, op, tys, d)
  }

  // ----- blocks -----

  /** A call: a saved return frame on the storage, the body, and the inputs dropped. */
  function CallOp(fuel: nat, p: Program, f: Func, fn: nat, tys: seq<TypeId>, d: Data): OpRes
    decreases fuel, 0, 0
  {
    if fn >= |p.funcs| || !ArgsFit(p.funcs[fn].sig, tys) || |d.params| < |tys| then OpRes(Stuck, d, tys) else
    var sig := p.funcs[fn].sig;
    if fuel == 0 then OpRes(Timeout, d, tys) else
    var r := RunFunc(fuel - 1, p, fn, d);
    if r.out.Normal? && |r.d.params| == |d.params| - |sig.ins|
    then OpRes(Normal, r.d, tys[..|tys| - |sig.ins|])
    else if r.out.Normal? then OpRes(Stuck, r.d, tys)
    else OpRes(r.out, r.d, tys)
  }

  /** A whole activation of function fn, whose arguments are on top of the stack. */
  function RunFunc(fuel: nat, p: Program, fn: nat, d: Data): Res
    requires fn < |p.funcs| && Argc(p.funcs[fn].sig) <= |d.params|
    decreases fuel, 2 * Size(p.funcs[fn].body) + 1, 0
  {
    var f := p.funcs[fn];
    var r := Exec(fuel, p, Act(fn, |d.params| - Argc(f.sig)), map[], f.body, Grow(d, RETURN_SIZE, Saved));
    if r.out.Leaving? || (r.out.Normal? && |r.d.params| < |f.sig.ins|) then Res(Stuck, r.d)
    else if r.out.Normal? then Res(Normal, Cut(Pop(r.d, |f.sig.ins|), |d.mem.storage|))
    else r
  }

  function RunOps(fuel: nat, p: Program, a: Act, env: Env, ops: seq<Op>, tys: seq<TypeId>, d: Data): OpRes
    requires a.fn < |p.funcs|
    decreases fuel, 0, |ops| + 1
  {
    if |ops| == 0 then OpRes(Normal, d, tys) else
    var r := if ops[0].Call? then CallOp(fuel, p, p.funcs[a.fn], ops[0].fn, tys, d)
             else SimpleOp(p, p.funcs[a.fn], a, env, ops[0], tys, d);
    if r.out.Normal? then RunOps(fuel, p, a, env, ops[1..], r.tys, r.d) else r
  }

  /** A basic block: what it leaves on the parameter stack is dropped at its end. */
  function ExecBasic(fuel: nat, p: Program, a: Act, env: Env, ops: seq<Op>, d: Data): Res
    requires a.fn < |p.funcs|
    decreases fuel, 1, 0
  {
    var r := RunOps(fuel, p, a, env, ops, [], d);
    if !r.out.Normal? then Res(r.out, r.d)
    else if |r.d.params| == |d.params| + |r.tys| then Res(Normal, CutParams(r.d, |d.params|))
    else Res(Stuck, r.d)
  }

  /** A condition: exactly one int is left on the parameter stack, read and popped. */
  function ExecCond(fuel: nat, p: Program, a: Act, env: Env, ops: seq<Op>, d: Data): (Res, bool)
    requires a.fn < |p.funcs|
    decreases fuel, 1, 0
  {
    var r := RunOps(fuel, p, a, env, ops, [], d);
    if !r.out.Normal? then (Res(r.out, r.d), false)
    else if r.tys != [INT] || |r.d.params| != |d.params| + 1 then (Res(Stuck, r.d), false)
    else match LoadNum(r.d.mem, Top(r.d))
      case None => (Res(Fault(UNDEFINED), r.d), false)
      case Some(x) => (Res(Normal, Pop(r.d, 1)), x != 0)
  }

  function Exec(fuel: nat, p: Program, a: Act, env: Env, t: Tree, d: Data): Res
    requires a.fn < |p.funcs|
    decreases fuel, 2 * Size(t), 0
  {
    var n := |d.mem.storage|;
    match t
    case Basic(ops) => ExecBasic(fuel, p, a, env, ops, d)
    case Many(kids) => Leave(ExecChain(fuel, p, a, env, kids, d), n)
    case SoftCrash => Res(Crashed, Crashing(d, VM_CRASH))
    case HardCrash => Res(HardCrashed, d)
    case Branch(cond, yes, no) =>
      var (r, taken) := ExecCond(fuel, p, a, env, cond, d);
      if !r.out.Normal? then r
      else if taken then Exec(fuel, p, a, env, yes, r.d)
      else Exec(fuel, p, a, env, no, r.d)
    case Loop(body) => ExecLoop(fuel, fuel, p, a, env, body, d)
    case Break(level) => if level == 0 then Res(Stuck, d) else Res(Leaving(level), d)
    case Var(v, body) =>
      var f := p.funcs[a.fn];
      if v >= |f.vars| || f.vars[v] >= |f.types| then Res(Stuck, d) else
      var r := Exec(fuel, p, a, env[v := n], body, Grow(d, f.types[f.vars[v]].size, Byte(0)));
      if r.out.Normal? then Res(Normal, Cut(r.d, n)) else Leave(r, n)
    case CrashPad(body, pad) =>
      var r := Exec(fuel, p, a, env, body, d);
      if !r.out.Crashed? then r else
      var c := Exec(fuel, p, a, env, pad, Restored(r.d, d));
      if c.out.Normal? then Res(Crashed, Crashing(c.d, VM_CRASH)) else c
    case Defer(next, cleanup) =>
      var r := Exec(fuel, p, a, env, next, d);
      if r.out.Normal? then Leave(Exec(fuel, p, a, env, cleanup, r.d), n)
      else if r.out.Crashed? then
        var c := Exec(fuel, p, a, env, cleanup, Restored(r.d, d));
        if c.out.Normal? then Res(Crashed, Crashing(c.d, VM_CRASH))
        else if c.out.Leaving? then Res(Stuck, c.d)
        else c
      else if r.out.Leaving? then
        var c := Exec(fuel, p, a, env, cleanup, r.d);
        if c.out.Normal? then Leave(Res(r.out, c.d), n)
        else if c.out.Leaving? then Res(Stuck, c.d)
        else if c.out.Crashed? then Res(Torn, c.d)
        else c
      else r
    case Stray => Res(Stuck, d)
    case Missing => Res(Stuck, d)
  }

  /** A soft crash gives back the storage and parameters the protected block started with. */
  function Restored(d: Data, start: Data): Data {
    CutParams(Cut(d, |start.mem.storage|), |start.params|)
  }

  /** A loop that may still make k iterations. */
  function ExecLoop(k: nat, fuel: nat, p: Program, a: Act, env: Env, body: Tree, d: Data): Res
    requires a.fn < |p.funcs|
    decreases fuel, 2 * Size(body) + 1, k
  {
    if k == 0 then Res(Timeout, d) else
    var r := Exec(fuel, p, a, env, body, d);
    if r.out.Normal? then ExecLoop(k - 1, fuel, p, a, env, body, r.d) else Leave(r, |d.mem.storage|)
  }

  function ExecChain(fuel: nat, p: Program, a: Act, env: Env, ch: Chain, d: Data): Res
    requires a.fn < |p.funcs|
    decreases fuel, 2 * ChainSize(ch), 0
  {
    match ch
    case End => Res(Normal, d)
    case BadLink => Res(Stuck, d)
    case Link(cur, rest) =>
      var r := Exec(fuel, p, a, env, cur, d);
      if r.out.Normal? then ExecChain(fuel, p, a, env, rest, r.d) else r
  }
}
