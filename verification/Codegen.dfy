/** What the compiler emits for a tree without defers, as a function. Inside a scope whose
    end is not known yet, a break is an IExit that names the scope. */
module Codegen {
  import opened Memory
  import opened Ir
  import opened Bytecode

  const MAX_TARGET: nat := 65535  // the largest uoffset_t
  const MAX_FRAME: nat := 32767   // the largest offset_t

  /** Where a variable lies, relative to the start of the frame. */
  datatype Layout = Layout(base: nat, live: bool)

  /** The frame size and number of pads with which a scope was entered. */
  datatype ScopeInfo = ScopeInfo(frame: nat, crash: nat)

  /** The state of the compiler between two blocks; its type stack is empty there. */
  datatype CState = CState(vars: seq<Layout>, frame: nat, crash: nat, scopes: seq<ScopeInfo>)

  /** `reach` tells whether the end of the code can be reached. */
  datatype Gen = Fail | Emit(code: seq<Instr>, reach: bool, vars: seq<Layout>)

  /** The program, the function that is compiled, and which functions are compiled already. */
  datatype Ctx = Ctx(p: Program, f: Func, done: seq<bool>)

  datatype OpGen = OpFail | OpEmit(code: seq<Instr>, tys: seq<TypeId>)

  // ----- operations -----

  function Payload(c: Ctx, tid: TypeId): nat
    requires tid < |c.f.types|
  {
    c.f.types[tid].payload
  }

  predicate EndsWith(tys: seq<TypeId>, last: seq<TypeId>) {
    |last| <= |tys| && tys[|tys| - |last|..] == last
  }

  function GenCall(c: Ctx, fn: nat, tys: seq<TypeId>): OpGen {
    if fn >= |c.p.funcs| || fn >= |c.done| || !c.done[fn] then OpFail else
    var sig := c.p.funcs[fn].sig;
    if !EndsWith(tys, sig.outs + sig.ins) then OpFail
    else OpEmit([ICall(fn + 1, Argc(sig))], tys[..|tys| - |sig.ins|])
  }

  function GenNative(c: Ctx, tys: seq<TypeId>): OpGen {
    if |tys| < 1 then OpFail else
    var fn, below := tys[|tys| - 1], tys[..|tys| - 1];
    if fn >= |c.f.types| || !c.f.types[fn].kind.KNative? then OpFail else
    var sig := c.f.types[fn].kind.sig;
    if !EndsWith(below, sig.outs + sig.ins) then OpFail
    else OpEmit([ICallNative(|sig.ins|)], below[..|below| - |sig.ins|])
  }

  function GenPush(c: Ctx, vars: seq<Layout>, frame: nat, op: Op, tys: seq<TypeId>): OpGen
    requires op.PushVar? || op.PushArg? || op.PushGlobal?
  {
    match op
    case PushVar(v) =>
      if v >= |c.f.vars| || v >= |vars| || !vars[v].live then OpFail
      else OpEmit([IPushVar(vars[v].base - frame)], tys + [c.f.vars[v]])
    case PushArg(i) =>
      if i >= |c.f.vars| || c.f.vars[i] >= |c.f.types| then OpFail
      else OpEmit([IPushArg(i)], tys + [c.f.vars[i]])
    case PushGlobal(g) =>
      if g >= |c.p.globals| || c.p.globals[g].tid >= |c.f.types| then OpFail
      else OpEmit([IPushGlobal(if c.p.globals[g].isNull then 0 else g + 1)], tys + [c.p.globals[g].tid])
  }

  function GenValue(c: Ctx, op: Op, tys: seq<TypeId>): OpGen
    requires op.Assign? || op.Calc? || op.BitNot?
  {
    var n := |tys|;
    match op
    case Assign =>
      if n < 2 || tys[n - 2] != tys[n - 1] || tys[n - 2] >= |c.f.types| then OpFail
      else OpEmit([ICopy(Payload(c, tys[n - 2]))], tys[..n - 1])
    case Calc(a) =>
      if n < 2 || tys[n - 2] != INT || tys[n - 1] != INT then OpFail else OpEmit([ICalc(a)], tys[..n - 1])
    case BitNot =>
      if n < 1 || tys[n - 1] != INT then OpFail else OpEmit([IBitNot], tys)
  }

  function GenArray(c: Ctx, op: Op, tys: seq<TypeId>): OpGen
    requires op.ArrPush? || op.ArrAt? || op.ArrDrop?
  {
    var n := |tys|;
    if n < 2 || tys[n - 2] >= |c.f.types| || !c.f.types[tys[n - 2]].kind.KArray? then OpFail else
    var KArray(elem, capacity, dataOffset) := c.f.types[tys[n - 2]].kind;
    if elem >= |c.f.types| then OpFail else
    match op
    case ArrAt =>
      if tys[n - 1] != INT then OpFail
      else OpEmit([IArrAt(dataOffset, Payload(c, elem), capacity)], tys[..n - 2] + [elem])
    case ArrPush =>
      if tys[n - 1] != elem then OpFail
      else OpEmit([IArrPush(dataOffset, Payload(c, elem), capacity)], tys[..n - 1])
    case ArrDrop =>
      if tys[n - 1] != INT then OpFail else OpEmit([IArrDrop], tys[..n - 1])
  }

  function GenSlice(c: Ctx, op: Op, tys: seq<TypeId>): OpGen
    requires op.SliceFromAr? || op.SliceFromOne? || op.SliceAt? || op.SliceInc? || op.SliceDec?
  {
    var n := |tys|;
    if n < 2 || tys[n - 2] >= |c.f.types| then OpFail else
    var ref := c.f.types[tys[n - 2]].kind;
    if !ref.KSlice? && !ref.KView? then OpFail
    else if ref.elem >= |c.f.types| then OpFail
    else
      var elem := ref.elem;
      match op
      case SliceFromAr =>
        if tys[n - 1] >= |c.f.types| || !c.f.types[tys[n - 1]].kind.KArray? || c.f.types[tys[n - 1]].kind.elem != elem then OpFail
        else OpEmit([ISliceFromArr(c.f.types[tys[n - 1]].kind.dataOffset, Payload(c, elem), SLICE_LEN_OFFSET)], tys[..n - 1])
      case SliceFromOne =>
        if !ref.KSlice? || tys[n - 1] != elem then OpFail else OpEmit([ISliceFromOne(SLICE_LEN_OFFSET)], tys[..n - 1])
      case SliceAt =>
        if tys[n - 1] != INT then OpFail
        else OpEmit([ISliceAt(Payload(c, elem), SLICE_LEN_OFFSET)], tys[..n - 2] + [elem])
      case SliceInc =>
        if !ref.KSlice? || tys[n - 1] != INT then OpFail
        else OpEmit([ISliceInc(Payload(c, elem), SLICE_LEN_OFFSET)], tys[..n - 1])
      case SliceDec =>
        if !ref.KSlice? || tys[n - 1] != INT then OpFail
        else OpEmit([ISliceDec(Payload(c, elem), SLICE_LEN_OFFSET)], tys[..n - 1])
  }

  function GenField(c: Ctx, field: nat, tys: seq<TypeId>): OpGen {
    var n := |tys|;
    if n < 1 || tys[n - 1] >= |c.f.types| || !c.f.types[tys[n - 1]].kind.KStruct? then OpFail else
    var fields := c.f.types[tys[n - 1]].kind.fields;
    if field >= |fields| || fields[field].tid >= |c.f.types| then OpFail
    else OpEmit([IStructAt(fields[field].offset)], tys[..n - 1] + [fields[field].tid])
  }

  function GenOp(c: Ctx, vars: seq<Layout>, frame: nat, op: Op, tys: seq<TypeId>): OpGen {
    if op.Null? then OpEmit([], tys)
    else if op.Call? then GenCall(c, op.fn, tys)
    else if op.CallNative? then GenNative(c, tys)
    else if op.Drop? then if op.n > |tys| then OpFail else OpEmit([IDropN(op.n)], tys[..|tys| - op.n])
    else if op.StructAt? then GenField(c, op.field, tys)
    else if op.PushVar? || op.PushArg? || op.PushGlobal? then GenPush(c, vars, frame, op, tys)
    else if op.Assign? || op.Calc? || op.BitNot? then GenValue(c, op, tys)
    else if op.ArrPush? || op.ArrAt? || op.ArrDrop? then GenArray(c, op, tys)
    else GenSlice(c, op, tys)
  }

  function GenOps(c: Ctx, vars: seq<Layout>, frame: nat, ops: seq<Op>, tys: seq<TypeId>): OpGen {
    if |ops| == 0 then OpEmit([], tys) else
    match GenOp(c, vars, frame, ops[0], tys)
    case OpFail => OpFail
    case OpEmit(code, tys1) =>
      match GenOps(c, vars, frame, ops[1..], tys1)
      case OpFail => OpFail
      case OpEmit(rest, tys2) => OpEmit(code + rest, tys2)
  }

  // ----- blocks -----

  /** The scope's end is known: its exits become jumps. */
  function Finish(code: seq<Instr>, scope: nat, target: nat): (r: seq<Instr>)
    ensures |r| == |code|
  {
    seq(|code|, k requires 0 <= k < |code| => if code[k] == IExit(scope) then IJump(target) else code[k])
  }

  predicate HasExit(code: seq<Instr>, scope: nat) { IExit(scope) in code }

  /** Closing the scope on top, at the end of its code. */
  function Close(st: CState, code: seq<Instr>, pos: nat, falls: bool, vars: seq<Layout>): Gen {
    var scope, end := |st.scopes|, pos + CodeLength(code);
    if HasExit(code, scope) && end > MAX_TARGET then Fail
    else Emit(Finish(code, scope, end), falls || HasExit(code, scope), vars)
  }

  function Inside(st: CState): CState {
    st.(scopes := st.scopes + [ScopeInfo(st.frame, st.crash)])
  }

  function PopPads(n: nat): seq<Instr> { seq(n, i => IPopCrash) }

  function BreakCode(crash: nat, targetCrash: nat, cut: int, scope: nat): seq<Instr> {
    (if crash > targetCrash then PopPads(crash - targetCrash) else [])
    + ((if cut != 0 then [IStorageAdd(cut)] else []) + [IExit(scope)])
  }

  function GenBreak(st: CState, level: nat): Gen {
    if level == 0 || level > |st.scopes| then Fail else
    var scope := |st.scopes| - level;
    var target := st.scopes[scope];
    Emit(BreakCode(st.crash, target.crash, target.frame - st.frame, scope), false, st.vars)
  }

  function GenBasic(c: Ctx, st: CState, ops: seq<Op>): Gen {
    match GenOps(c, st.vars, st.frame, ops, [])
    case OpFail => Fail
    case OpEmit(code, tys) => Emit(code + (if |tys| > 0 then [IDropN(|tys|)] else []), true, st.vars)
  }

  /** The target of the jump back is narrowed to 16 bits without a check. */
  function LoopCode(body: seq<Instr>, reach: bool, pos: nat): seq<Instr> {
    body + if reach then [IJump(pos % TWO16)] else []
  }

  function VarCode(size: nat, body: seq<Instr>, reach: bool): seq<Instr> {
    [IStorageAdd(size)] + (body + if reach then [IStorageAdd(-(size as int))] else [])
  }

  function BranchCode(cond: seq<Instr>, yesPos: nat, noPos: nat, y: seq<Instr>, yReach: bool, end: nat, n: seq<Instr>): seq<Instr> {
    cond + ([IBranchTop(yesPos, noPos)] + (y + ((if yReach then [IJump(end)] else []) + n)))
  }

  function PadCode(padPos: nat, b: seq<Instr>, bReach: bool, end: nat, q: seq<Instr>, qReach: bool): seq<Instr> {
    [IPushCrash(padPos)] + (b + ((if bReach then [IPopCrash, IJump(end)] else []) + (q + if qReach then [ICrash] else [])))
  }

  /** The code of t when it starts at byte `pos`. */
  function GenTree(c: Ctx, st: CState, t: Tree, pos: nat): Gen
    decreases Size(t), 0
  {
    match t
    case Basic(ops) => GenBasic(c, st, ops)
    case Many(kids) => CloseMany(st, GenChain(c, Inside(st), kids, pos), pos)
    case SoftCrash => Emit([ICrash], false, st.vars)
    case HardCrash => Emit([IHardCrash], false, st.vars)
    case CrashPad(body, pad) => GenPad(c, st, body, pad, pos)
    case Branch(cond, yes, no) => GenBranch(c, st, cond, yes, no, pos)
    case Loop(body) => CloseLoop(st, GenTree(c, Inside(st), body, pos), pos)
    case Break(level) => GenBreak(st, level)
    case Var(v, body) => GenVar(c, st, v, body, pos)
    case Defer(_, _) => Fail
    case Stray => Fail
    case Missing => Fail
  }

  function CloseMany(st: CState, g: Gen, pos: nat): Gen {
    if g.Fail? then Fail else Close(st, g.code, pos, g.reach, g.vars)
  }

  /** A body that can be left has to leave the compiler in the state of the loop's head. */
  function CloseLoop(st: CState, b: Gen, pos: nat): Gen {
    if b.Fail? || (b.reach && b.vars != st.vars) then Fail
    else Close(st, LoopCode(b.code, b.reach, pos), pos, false, st.vars)
  }

  /** The state in which the body of VAR v is compiled. */
  function VarState(c: Ctx, st: CState, v: nat): CState
    requires v < |c.f.vars| && v < |st.vars| && c.f.vars[v] < |c.f.types|
  {
    Inside(st).(vars := st.vars[v := Layout(st.frame, true)], frame := st.frame + VarSize(c, v))
  }

  function VarSize(c: Ctx, v: nat): nat
    requires v < |c.f.vars| && c.f.vars[v] < |c.f.types|
  {
    c.f.types[c.f.vars[v]].size
  }

  function Dead(vars: seq<Layout>, v: nat): seq<Layout> {
    if v < |vars| then vars[v := vars[v].(live := false)] else vars
  }

  function CloseVar(st: CState, v: nat, size: nat, b: Gen, pos: nat): Gen {
    if b.Fail? then Fail else Close(st, VarCode(size, b.code, b.reach), pos, b.reach, Dead(b.vars, v))
  }

  function GenVar(c: Ctx, st: CState, v: nat, body: Tree, pos: nat): Gen
    decreases Size(body), 1
  {
    if v >= |c.f.vars| || v >= |st.vars| || c.f.vars[v] >= |c.f.types| then Fail
    else if VarSize(c, v) > MAX_FRAME || st.frame + VarSize(c, v) > MAX_FRAME then Fail
    else CloseVar(st, v, VarSize(c, v), GenTree(c, VarState(c, st, v), body, pos + Length(IStorageAdd(VarSize(c, v)))), pos)
  }

  function YesPos(pos: nat, cc: seq<Instr>): nat { pos + CodeLength(cc) + Length(IBranchTop(0, 0)) }

  function NoPos(pos: nat, cc: seq<Instr>, y: Gen): nat
    requires y.Emit?
  {
    YesPos(pos, cc) + CodeLength(y.code) + (if y.reach then Length(IJump(0)) else 0)
  }

  function JoinBranch(pos: nat, cc: seq<Instr>, y: Gen, n: Gen): Gen
    requires y.Emit?
  {
    if n.Fail? then Fail else
    var yesPos, noPos := YesPos(pos, cc), NoPos(pos, cc, y);
    var end := noPos + CodeLength(n.code);
    if yesPos > MAX_TARGET || noPos > MAX_TARGET || (y.reach && end > MAX_TARGET) then Fail
    else if y.reach && n.reach && y.vars != n.vars then Fail
    else Emit(BranchCode(cc, yesPos, noPos, y.code, y.reach, end, n.code), y.reach || n.reach, if y.reach then y.vars else n.vars)
  }

  function GenBranch(c: Ctx, st: CState, cond: seq<Op>, yes: Tree, no: Tree, pos: nat): Gen
    decreases Size(yes) + Size(no), 1
  {
    var cc := GenOps(c, st.vars, st.frame, cond, []);
    if cc.OpFail? || cc.tys != [INT] then Fail else
    var y := GenTree(c, st, yes, YesPos(pos, cc.code));
    if y.Fail? then Fail else
    JoinBranch(pos, cc.code, y, GenTree(c, st, no, NoPos(pos, cc.code, y)))
  }

  function BodyPos(pos: nat): nat { pos + Length(IPushCrash(0)) }

  function PadPos(pos: nat, b: Gen): nat
    requires b.Emit?
  {
    BodyPos(pos) + CodeLength(b.code) + (if b.reach then Length(IPopCrash) + Length(IJump(0)) else 0)
  }

  function JoinPad(pos: nat, b: Gen, q: Gen): Gen
    requires b.Emit?
  {
    if q.Fail? then Fail else
    var padPos := PadPos(pos, b);
    var end := padPos + CodeLength(q.code) + (if q.reach then Length(ICrash) else 0);
    if padPos > MAX_TARGET || (b.reach && end > MAX_TARGET) then Fail
    else Emit(PadCode(padPos, b.code, b.reach, end, q.code, q.reach), b.reach, if b.reach then b.vars else q.vars)
  }

  function GenPad(c: Ctx, st: CState, body: Tree, pad: Tree, pos: nat): Gen
    decreases Size(body) + Size(pad), 1
  {
    var b := GenTree(c, st.(crash := st.crash + 1), body, BodyPos(pos));
    if b.Fail? then Fail else
    JoinPad(pos, b, GenTree(c, st, pad, PadPos(pos, b)))
  }

  /** Children behind one that cannot be left are skipped, but the chain has to be whole. */
  function GenChain(c: Ctx, st: CState, ch: Chain, pos: nat): Gen
    decreases ChainSize(ch), 0
  {
    match ch
    case End => Emit([], true, st.vars)
    case BadLink => Fail
    case Link(cur, rest) =>
      (match GenTree(c, st, cur, pos)
       case Fail => Fail
       case Emit(code, reach, vars) =>
         if !reach then (if Whole(rest) then Emit(code, false, vars) else Fail)
         else match GenChain(c, st.(vars := vars), rest, pos + CodeLength(code))
           case Fail => Fail
           case Emit(code1, reach1, vars1) => Emit(code + code1, reach1, vars1))
  }

  predicate Whole(ch: Chain) {
    match ch
    case End => true
    case BadLink => false
    case Link(_, rest) => Whole(rest)
  }

  // ----- functions -----

  function NoVars(n: nat): seq<Layout> { seq(n, i => Layout(0, false)) }

  function Initial(f: Func): CState { CState(NoVars(|f.vars|), 0, 0, []) }

  /** The code of a function: its body, then its inputs dropped, then the return. */
  function GenFunc(c: Ctx): Option<seq<Instr>> {
    match GenTree(c, Initial(c.f), c.f.body, 0)
    case Fail => None
    case Emit(code, _, _) =>
      Some(code + (if |c.f.sig.ins| > 0 then [IDropN(|c.f.sig.ins|)] else []) + [IRet])
  }

  /** Which of the first n functions compile, when calls go to earlier functions. */
  function Compiled(p: Program, n: nat): (r: seq<bool>)
    requires n <= |p.funcs|
    ensures |r| == n
  {
    if n == 0 then [] else
    var before := Compiled(p, n - 1);
    before + [GenFunc(Ctx(p, p.funcs[n - 1], before)).Some?]
  }

  function FuncCtx(p: Program, fn: nat): Ctx
    requires fn < |p.funcs|
  {
    Ctx(p, p.funcs[fn], Compiled(p, fn))
  }
}
