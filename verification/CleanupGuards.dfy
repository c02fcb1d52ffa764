/** When a cleanup of plain operations makes a torn run: when one of its operands is refused. */
module CleanupGuards {
  import opened Memory
  import opened Ir
  import opened Semantics
  import opened Lowering
  import opened LoweringProof
  import opened Cleanup
  import opened TornRuns
  import opened CleanupTwice

  // ----- the operands that an operation refuses -----

  predicate Ints(tys: seq<TypeId>, d: Data) { |tys| >= 2 && |d.params| >= 2 && tys[|tys| - 2] == INT && tys[|tys| - 1] == INT }

  /** A division by zero. */
  predicate DividesByZero(op: Op, tys: seq<TypeId>, d: Data) {
    op.Calc? && op.a.Div? && Ints(tys, d) && LoadNum(d.mem, Top(d)) == Some(0) && LoadNum(d.mem, Second(d)).Some?
  }

  /** An array that is full, an index that is not in it, or more elements to drop than it has. */
  predicate ArrayRefuses(types: seq<Type>, op: Op, tys: seq<TypeId>, d: Data) {
    (op.ArrPush? || op.ArrAt? || op.ArrDrop?) && |tys| >= 2 && |d.params| >= 2 &&
    var t := tys[|tys| - 2];
    t < |types| && types[t].kind.KArray? && types[t].kind.elem < |types| &&
    tys[|tys| - 1] == (if op.ArrPush? then types[t].kind.elem else INT) &&
    match LoadCount(d.mem, Second(d))
    case None => false
    case Some(len) =>
      if op.ArrPush? then len >= types[t].kind.capacity else
      match LoadNum(d.mem, Top(d))
      case None => false
      case Some(x) => if op.ArrAt? then IndexRefused(x, len) || IndexRefused(x, types[t].kind.capacity) else IndexRefused(x, len + 1)
  }

  /** An index or a count that the slice or view is too short for. */
  predicate SliceRefuses(types: seq<Type>, op: Op, tys: seq<TypeId>, d: Data) {
    (op.SliceAt? || op.SliceInc? || op.SliceDec?) && |tys| >= 2 && |d.params| >= 2 &&
    var t := tys[|tys| - 2];
    t < |types| && (types[t].kind.KSlice? || (types[t].kind.KView? && op.SliceAt?)) && types[t].kind.elem < |types| &&
    tys[|tys| - 1] == INT &&
    match LoadNum(d.mem, Top(d))
    case None => false
    case Some(x) =>
      (!op.SliceAt? && x < 0) ||
      (match (LoadPtr(d.mem, Second(d)), LoadCount(d.mem, PtrAdd(Second(d), SLICE_LEN_OFFSET)))
       case (Some(_), Some(len)) => IndexRefused(x, if op.SliceAt? then len else len + 1)
       case _ => false)
  }

  /** A native that reports a soft crash. */
  predicate NativeRefuses(native: Native, types: seq<Type>, op: Op, tys: seq<TypeId>, d: Data) {
    op.CallNative? && |tys| >= 1 && |d.params| >= |tys| &&
    var t := tys[|tys| - 1];
    t < |types| && types[t].kind.KNative? && ArgsFit(types[t].kind.sig, tys[..|tys| - 1]) &&
    match LoadFn(d.mem, Top(d))
    case Some(Some(id)) =>
      var out := CallNativeFn(native, id, d.mem, Pop(d, 1).params);
      out.NativeSoft? && out.code != VM_OK && out.code != VM_HARD_CRASH
    case _ => false
  }

  predicate Refuses(p: Program, types: seq<Type>, op: Op, tys: seq<TypeId>, d: Data) {
    DividesByZero(op, tys, d) || ArrayRefuses(types, op, tys, d) || SliceRefuses(types, op, tys, d) || NativeRefuses(p.native, types, op, tys, d)
  }

  predicate CanRefuse(op: Op) {
    op.Calc? || op.ArrPush? || op.ArrAt? || op.ArrDrop? || op.SliceAt? || op.SliceInc? || op.SliceDec? || op.CallNative?
  }

  lemma OthersAreCalm(p: Program, f: Func, a: Act, env: Env, op: Op, tys: seq<TypeId>, d: Data)
    requires !op.Call? && !CanRefuse(op)
    ensures !SimpleOp(p, f, a, env, op, tys, d).out.Crashed? && !Refuses(p, f.types, op, tys, d)
  {
    hide Load, Store, StoreNum, StoreCount, StorePtr, LoadNum, LoadCount, LoadPtr, LoadFn, CallNativeFn, Elem;
  }

  /** An operation soft-crashes exactly when it refuses its operands. */
  lemma CrashIsRefusal(p: Program, f: Func, a: Act, env: Env, op: Op, tys: seq<TypeId>, d: Data)
    requires !op.Call?
    ensures SimpleOp(p, f, a, env, op, tys, d).out.Crashed? <==> Refuses(p, f.types, op, tys, d)
  {
    hide OpValue, OpArray, OpSlice, OpNative, OpPush, OpField;
    if !CanRefuse(op) {
      OthersAreCalm(p, f, a, env, op, tys, d);
    } else if op.Calc? {
      CalcRefuses(f.types, op, tys, d);
    } else if op.CallNative? {
      NativeCrash(p.native, f.types, op, tys, d);
    } else if op.ArrPush? || op.ArrAt? || op.ArrDrop? {
      ArrayCrash(f.types, op, tys, d);
    } else {
      SliceCrash(f.types, op, tys, d);
    }
  }

  lemma CalcRefuses(types: seq<Type>, op: Op, tys: seq<TypeId>, d: Data)
    requires op.Calc?
    ensures OpValue(types, op, tys, d).out.Crashed? <==> DividesByZero(op, tys, d)
  {
    hide StoreNum, LoadNum;
  }

  lemma ArrayCrash(types: seq<Type>, op: Op, tys: seq<TypeId>, d: Data)
    requires op.ArrPush? || op.ArrAt? || op.ArrDrop?
    ensures OpArray(types, op, tys, d).out.Crashed? <==> ArrayRefuses(types, op, tys, d)
  {
    hide Load, Store, StoreCount, LoadNum, LoadCount, Elem;
  }

  lemma SliceCrash(types: seq<Type>, op: Op, tys: seq<TypeId>, d: Data)
    requires op.SliceAt? || op.SliceInc? || op.SliceDec?
    ensures OpSlice(types, op, tys, d).out.Crashed? <==> SliceRefuses(types, op, tys, d)
  {
    hide StorePtr, StoreCount, LoadNum, LoadCount, LoadPtr, Elem;
  }

  lemma NativeCrash(native: Native, types: seq<Type>, op: Op, tys: seq<TypeId>, d: Data)
    requires op.CallNative?
    ensures OpNative(native, types, tys, d).out.Crashed? <==> NativeRefuses(native, types, op, tys, d)
  {
    hide LoadFn, CallNativeFn;
  }

  // ----- plain cleanups -----

  predicate Plain(ops: seq<Op>) { forall k :: 0 <= k < |ops| ==> !ops[k].Call? && !ops[k].Null? }

  /** One of the operations refuses its operands in the state that it is reached in. */
  predicate SomeRefuses(p: Program, f: Func, a: Act, env: Env, ops: seq<Op>, tys: seq<TypeId>, d: Data)
    requires Plain(ops)
  {
    |ops| > 0 &&
    (Refuses(p, f.types, ops[0], tys, d) ||
     var r := SimpleOp(p, f, a, env, ops[0], tys, d);
     r.out.Normal? && SomeRefuses(p, f, a, env, ops[1..], r.tys, r.d))
  }

  lemma {:induction false} RunRefuses(fuel: nat, p: Program, a: Act, env: Env, ops: seq<Op>, tys: seq<TypeId>, d: Data)
    requires a.fn < |p.funcs| && Plain(ops)
    ensures var r := RunOps(fuel, p, a, env, ops, tys, d);
      (r.out.Crashed? <==> SomeRefuses(p, p.funcs[a.fn], a, env, ops, tys, d)) && !r.out.Torn?
    decreases |ops|
  {
    hide SimpleOp, Refuses;
    if |ops| > 0 {
      CrashIsRefusal(p, p.funcs[a.fn], a, env, ops[0], tys, d);
      SimpleNeverTorn(p, p.funcs[a.fn], a, env, ops[0], tys, d);
      var r := SimpleOp(p, p.funcs[a.fn], a, env, ops[0], tys, d);
      if r.out.Normal? { RunRefuses(fuel, p, a, env, ops[1..], r.tys, r.d); }
    }
  }

  /** A break out of a defer with a plain cleanup: the run is torn, and the lowered program
      runs the cleanup twice, exactly when the cleanup refuses an operand in the state the
      break leaves. The state is known before the cleanup starts. */
  lemma PlainCleanup(fuel: nat, sig: Sig, types: seq<Type>, vars: seq<TypeId>, tag: nat, ops: seq<Op>, d: Data)
    requires Plain(ops) && Argc(sig) <= |d.params|
    ensures var p := OneFunc(sig, types, vars, tag, Link(Basic(ops), End));
      var a := Act(0, |d.params| - Argc(sig));
      var e := Passed(Passed(Grow(d, RETURN_SIZE, Saved), 2 * tag), 2 * tag + 1);
      && ProgramLowerable(p) && ProgramProbed(p)
      && (RunFunc(fuel, p, 0, d).out.Torn? <==> SomeRefuses(p, p.funcs[0], a, map[], ops, [], e))
      && (Counted(RunFunc(fuel, LowerProgram(p), 0, d).out) ==>
            (Extends(d, RunFunc(fuel, LowerProgram(p), 0, d).d) <==> !SomeRefuses(p, p.funcs[0], a, map[], ops, [], e)))
  {
    hide SomeRefuses, ProgramLowerable, ProgramProbed, Extends, Lowerable, ChainLowerable, RunOps;
    var rest := Link(Basic(ops), End);
    var p := OneFunc(sig, types, vars, tag, rest);
    var a := Act(0, |d.params| - Argc(sig));
    PlainIsFine(ops);
    OneFuncOk(sig, types, vars, tag, rest);
    var d1 := Grow(d, RETURN_SIZE, Saved);
    var e := Passed(Passed(d1, 2 * tag), 2 * tag + 1);
    OutRuns(fuel, p, a, map[], tag, rest, d1);
    RunRefuses(fuel, p, a, map[], ops, [], e);
    var c := Exec(fuel, p, a, map[], Basic(ops), e);
    assert ExecChain(fuel, p, a, map[], rest, e) == if c.out.Normal? then Res(Normal, c.d) else c;
    var q := RunOps(fuel, p, a, map[], ops, [], e);
    assert c == ExecBasic(fuel, p, a, map[], ops, e);
    assert !c.out.Torn? && (c.out.Crashed? <==> q.out.Crashed?);
    assert p.funcs[0].body == ProbedOut(tag, rest);
    assert RunFunc(fuel, p, 0, d).out.Torn? <==> Exec(fuel, p, a, map[], ProbedOut(tag, rest), d1).out.Torn? by { FuncEnds(fuel, p, 0, d); }
    if Counted(RunFunc(fuel, LowerProgram(p), 0, d).out) { CleansUpOnceExactly(fuel, p, 0, d); }
  }

  lemma PlainIsFine(ops: seq<Op>)
    requires Plain(ops)
    ensures var rest := Link(Basic(ops), End); ChainEscapes(rest, 1) && ChainLowerable(rest, [InScope]) && ChainProbed(rest)
  {
    assert Lowerable(Basic(ops), [InScope]) && ChainLowerable(End, [InScope]);
    assert Escapes(Basic(ops), 1) && ChainEscapes(End, 1);
    assert Probed(Basic(ops)) && ChainProbed(End);
  }

  /** For a cleanup that divides one argument by the other: exactly when that one is zero. */
  lemma DividingCleanup(fuel: nat, types: seq<Type>, d: Data, x: int, y: int)
    requires |types| > 0 && |d.params| >= 2
    requires var m := Grow(d, RETURN_SIZE, Saved).mem;
      LoadNum(m, d.params[|d.params| - 2]) == Some(x) && LoadNum(m, d.params[|d.params| - 1]) == Some(y)
    ensures var p := OneFunc(Sig([], [INT, INT]), types, [INT, INT], 0, Link(Basic([PushArg(0), PushArg(1), Calc(Div)]), End));
      RunFunc(fuel, p, 0, d).out.Torn? <==> y == 0
  {
    hide LoadNum, StoreNum, RunFunc, SomeRefuses, ProgramLowerable, ProgramProbed, Extends, LowerProgram;
    var sig, ops := Sig([], [INT, INT]), [PushArg(0), PushArg(1), Calc(Div)];
    var p := OneFunc(sig, types, [INT, INT], 0, Link(Basic(ops), End));
    var a := Act(0, |d.params| - 2);
    PlainCleanup(fuel, sig, types, [INT, INT], 0, ops, d);
    var e := Passed(Passed(Grow(d, RETURN_SIZE, Saved), 0), 1);
    var e1 := Push(e, d.params[|d.params| - 2]);
    var e2 := Push(e1, d.params[|d.params| - 1]);
    ArgPushed(p, a, 0, [], e, ops);
    assert ops[1..] == [PushArg(1), Calc(Div)];
    assert [] + [INT] == [INT] && [INT] + [INT] == [INT, INT];
    assert e1.params[a.argBase + 1] == d.params[|d.params| - 1];
    ArgPushed(p, a, 1, [INT], e1, ops[1..]);
    assert ops[1..][1..] == [Calc(Div)];
    assert Top(e2) == d.params[|d.params| - 1] && Second(e2) == d.params[|d.params| - 2];
    assert e2.mem == Grow(d, RETURN_SIZE, Saved).mem;
    Divided(p, a, e2, y);
  }

  /** Pushing an argument refuses nothing. */
  lemma ArgPushed(p: Program, a: Act, i: nat, tys: seq<TypeId>, d: Data, ops: seq<Op>)
    requires |p.funcs| > 0 && i < |p.funcs[0].vars| && p.funcs[0].vars[i] == INT && |p.funcs[0].types| > 0 && a.argBase + i < |d.params|
    requires Plain(ops) && |ops| > 0 && ops[0] == PushArg(i)
    ensures SomeRefuses(p, p.funcs[0], a, map[], ops, tys, d)
       <==> SomeRefuses(p, p.funcs[0], a, map[], ops[1..], tys + [INT], Push(d, d.params[a.argBase + i]))
  {
    assert SimpleOp(p, p.funcs[0], a, map[], PushArg(i), tys, d) == OpRes(Normal, Push(d, d.params[a.argBase + i]), tys + [INT]);
  }

  lemma Divided(p: Program, a: Act, d: Data, y: int)
    requires |p.funcs| > 0 && |d.params| >= 2 && LoadNum(d.mem, Top(d)) == Some(y) && LoadNum(d.mem, Second(d)).Some?
    ensures SomeRefuses(p, p.funcs[0], a, map[], [Calc(Div)], [INT, INT], d) <==> y == 0
  {
    hide LoadNum, StoreNum, SimpleOp;
    assert [Calc(Div)][1..] == [];
  }
}
