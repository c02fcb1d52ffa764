/** What every run of a block tree keeps: the first crash code, the parameters below, and
    the few results a run can stop with. */
module Outcomes {
  import opened Memory
  import opened Ir
  import opened Semantics

  /** The results that would mean that the machine itself was misused. */
  predicate Internal(r: VmResult) {
    r.VM_PARAM_UNDERFLOW? || r.VM_STORAGE_UNDERFLOW? || r.VM_CRASH_UNDERFLOW? || r.VM_BAD_CRASH_FRAME? ||
    r.VM_INVALID_STORAGE_OFFSET? || r.VM_INVALID_ARG? || r.VM_NULL_CALL_TARGET? || r.VM_INVALID_BYTECODE? || r.ASTRAY?
  }

  /** Native callbacks do not report the machine's own faults. */
  ghost predicate Tame(native: Native) {
    forall id, m, ps :: native(id, m, ps).NativeSoft? ==> !Internal(native(id, m, ps).code)
  }

  predicate OpsWithin(ops: seq<Op>, n: nat) {
    forall op :: op in ops && op.PushArg? ==> op.i < n
  }

  /** Arguments are only pushed by indices below n. */
  predicate TreeWithin(t: Tree, n: nat)
    decreases Size(t)
  {
    match t
    case Basic(ops) => OpsWithin(ops, n)
    case Defer(next, cleanup) => TreeWithin(next, n) && TreeWithin(cleanup, n)
    case Many(kids) => ChainWithin(kids, n)
    case CrashPad(body, pad) => TreeWithin(body, n) && TreeWithin(pad, n)
    case Branch(cond, yes, no) => OpsWithin(cond, n) && TreeWithin(yes, n) && TreeWithin(no, n)
    case Loop(body) => TreeWithin(body, n)
    case Var(_, body) => TreeWithin(body, n)
    case _ => true
  }

  predicate ChainWithin(ch: Chain, n: nat)
    decreases ChainSize(ch)
  {
    ch.Link? ==> TreeWithin(ch.cur, n) && ChainWithin(ch.rest, n)
  }

  ghost predicate ProgramWithin(p: Program) {
    forall fn :: 0 <= fn < |p.funcs| ==> TreeWithin(p.funcs[fn].body, Argc(p.funcs[fn].sig))
  }

  /** How the state d with n parameters below may have become e. Unless `strict`, an argument
      may be missing. */
  ghost predicate Orderly(strict: bool, native: Native, n: nat, d: Data, out: Outcome, e: Data) {
    && (d.ans != VM_OK ==> e.ans == d.ans)
    && (e.ans == d.ans || (Tame(native) ==> !Internal(e.ans)))
    && (out.Normal? || out.Leaving? ==> |e.params| == n)
    && (out.Crashed? ==> e.ans != VM_OK && n <= |e.params|)
    && (out.Fault? ==> out.r.UNDEFINED? || out.r.VM_NULL_GLOBAL? || out.r.VM_NULL_NATIVE_FUNC? || (out.r.VM_INVALID_ARG? && !strict))
  }

  // ----- operations -----

  /** For operations on the operands `tys`, which leave others. */
  ghost predicate OpOrderly(strict: bool, native: Native, tys: seq<TypeId>, d: Data, r: OpRes)
    requires |tys| <= |d.params|
  {
    Orderly(strict, native, |d.params| - |tys| + (if r.out.Normal? then |r.tys| else 0), d, r.out, r.d) && !r.out.Leaving?
  }

  lemma SimpleOrderly(strict: bool, p: Program, f: Func, a: Act, env: Env, op: Op, tys: seq<TypeId>, d: Data, r: OpRes)
    requires !op.Call? && |tys| <= |d.params| && r == SimpleOp(p, f, a, env, op, tys, d)
    requires strict && op.PushArg? ==> a.argBase + op.i < |d.params|
    ensures OpOrderly(strict, p.native, tys, d, r)
  {
    hide LoadNum, StoreNum, LoadCount, StoreCount, LoadPtr, StorePtr, LoadFn, Load, Store, Elem, PtrAdd, Compute, Tame;
    if op.CallNative? {
      NativeOrderly(strict, p.native, f.types, tys, d, r);
    } else if op.ArrPush? || op.ArrAt? || op.ArrDrop? {
      ArrayOrderly(strict, p.native, f.types, op, tys, d, r);
    } else if op.SliceFromAr? || op.SliceFromOne? || op.SliceAt? || op.SliceInc? || op.SliceDec? {
      SliceOrderly(strict, p.native, f.types, op, tys, d, r);
    } else if op.Assign? || op.Calc? || op.BitNot? {
      ValueOrderly(strict, p.native, f.types, op, tys, d, r);
    }
  }

  lemma ValueOrderly(strict: bool, native: Native, types: seq<Type>, op: Op, tys: seq<TypeId>, d: Data, r: OpRes)
    requires (op.Assign? || op.Calc? || op.BitNot?) && |tys| <= |d.params| && r == OpValue(types, op, tys, d)
    ensures OpOrderly(strict, native, tys, d, r)
  {
    hide LoadNum, StoreNum, Load, Store, Compute, Tame;
  }

  lemma ArrayOrderly(strict: bool, native: Native, types: seq<Type>, op: Op, tys: seq<TypeId>, d: Data, r: OpRes)
    requires (op.ArrPush? || op.ArrAt? || op.ArrDrop?) && |tys| <= |d.params| && r == OpArray(types, op, tys, d)
    ensures OpOrderly(strict, native, tys, d, r)
  {
    hide LoadNum, StoreNum, LoadCount, StoreCount, Load, Store, Elem, PtrAdd, Tame;
  }

  lemma SliceOrderly(strict: bool, native: Native, types: seq<Type>, op: Op, tys: seq<TypeId>, d: Data, r: OpRes)
    requires op.SliceFromAr? || op.SliceFromOne? || op.SliceAt? || op.SliceInc? || op.SliceDec?
    requires |tys| <= |d.params| && r == OpSlice(types, op, tys, d)
    ensures OpOrderly(strict, native, tys, d, r)
  {
    hide LoadNum, StoreNum, LoadCount, StoreCount, LoadPtr, StorePtr, Elem, PtrAdd, StoreSlice, Tame;
  }

  lemma NativeOrderly(strict: bool, native: Native, types: seq<Type>, tys: seq<TypeId>, d: Data, r: OpRes)
    requires |tys| <= |d.params| && r == OpNative(native, types, tys, d)
    ensures OpOrderly(strict, native, tys, d, r)
  {
    hide LoadFn, SameShape;
    if Tame(native) && r.out.Crashed? {
      var id := LoadFn(d.mem, Top(d)).value.value;
      assert native(id, d.mem, Pop(d, 1).params).NativeSoft?;
    }
  }

  // ----- runs -----

  ghost predicate Inside(strict: bool, p: Program, a: Act, d: Data) {
    a.fn < |p.funcs| && (strict ==> ProgramWithin(p)) && a.argBase + Argc(p.funcs[a.fn].sig) <= |d.params|
  }

  function Arity(p: Program, a: Act): nat
    requires a.fn < |p.funcs|
  {
    Argc(p.funcs[a.fn].sig)
  }

  lemma OrderlyOn(strict: bool, native: Native, n: nat, d: Data, e: Data, out: Outcome, r: Data)
    requires Orderly(strict, native, n, d, Normal, e) || (Orderly(strict, native, n, d, Crashed, e))
    requires Orderly(strict, native, n, e, out, r)
    ensures Orderly(strict, native, n, d, out, r)
  {
  }

  lemma {:induction false} CallOrderly(strict: bool, fuel: nat, p: Program, f: Func, fn: nat, tys: seq<TypeId>, d: Data, r: OpRes)
    requires (strict ==> ProgramWithin(p)) && |tys| <= |d.params| && r == CallOp(fuel, p, f, fn, tys, d)
    ensures OpOrderly(strict, p.native, tys, d, r)
    decreases fuel, 0, 0
  {
    if fuel > 0 && fn < |p.funcs| && ArgsFit(p.funcs[fn].sig, tys) {
      FuncOrderly(strict, fuel - 1, p, fn, d, RunFunc(fuel - 1, p, fn, d));
    }
  }

  /** A whole call: the inputs are gone, all other parameters are there. */
  lemma {:induction false} FuncOrderly(strict: bool, fuel: nat, p: Program, fn: nat, d: Data, r: Res)
    requires (strict ==> ProgramWithin(p)) && fn < |p.funcs| && Argc(p.funcs[fn].sig) <= |d.params| && r == RunFunc(fuel, p, fn, d)
    ensures Orderly(strict, p.native, |d.params| - (if r.out.Normal? then |p.funcs[fn].sig.ins| else 0), d, r.out, r.d)
    ensures !r.out.Leaving?
    decreases fuel, 2 * Size(p.funcs[fn].body) + 1, 0
  {
    hide Exec, TreeWithin, Tame;
    var f := p.funcs[fn];
    var a, d1 := Act(fn, |d.params| - Argc(f.sig)), Grow(d, RETURN_SIZE, Saved);
    TreeOrderly(strict, fuel, p, a, map[], f.body, d1, Exec(fuel, p, a, map[], f.body, d1));
  }

  lemma {:induction false} OpsOrderly(strict: bool, fuel: nat, p: Program, a: Act, env: Env, ops: seq<Op>, tys: seq<TypeId>, d: Data, r: OpRes)
    requires Inside(strict, p, a, d) && |tys| <= |d.params| && a.argBase + Arity(p, a) <= |d.params| - |tys| && (strict ==> OpsWithin(ops, Arity(p, a)))
    requires r == RunOps(fuel, p, a, env, ops, tys, d)
    ensures OpOrderly(strict, p.native, tys, d, r)
    decreases fuel, 0, |ops| + 1
  {
    hide CallOp, SimpleOp, Tame, ProgramWithin;
    if |ops| > 0 {
      var q := if ops[0].Call? then CallOp(fuel, p, p.funcs[a.fn], ops[0].fn, tys, d)
               else SimpleOp(p, p.funcs[a.fn], a, env, ops[0], tys, d);
      if ops[0].Call? {
        CallOrderly(strict, fuel, p, p.funcs[a.fn], ops[0].fn, tys, d, q);
      } else {
        assert ops[0] in ops;
        SimpleOrderly(strict, p, p.funcs[a.fn], a, env, ops[0], tys, d, q);
      }
      if q.out.Normal? { OpsOrderly(strict, fuel, p, a, env, ops[1..], q.tys, q.d, r); }
    }
  }

  lemma {:induction false} TreeOrderly(strict: bool, fuel: nat, p: Program, a: Act, env: Env, t: Tree, d: Data, r: Res)
    requires Inside(strict, p, a, d) && (strict ==> TreeWithin(t, Arity(p, a))) && r == Exec(fuel, p, a, env, t, d)
    ensures Orderly(strict, p.native, |d.params|, d, r.out, r.d)
    decreases fuel, 2 * Size(t), 0
  {
    hide Tame, ProgramWithin, OpsWithin, RunOps, LoadNum;
    match t {
      case Basic(ops) => OpsOrderly(strict, fuel, p, a, env, ops, [], d, RunOps(fuel, p, a, env, ops, [], d));
      case Many(kids) => ChainOrderly(strict, fuel, p, a, env, kids, d, ExecChain(fuel, p, a, env, kids, d));
      case Branch(cond, yes, no) =>
        OpsOrderly(strict, fuel, p, a, env, cond, [], d, RunOps(fuel, p, a, env, cond, [], d));
        var (q, taken) := ExecCond(fuel, p, a, env, cond, d);
        if q.out.Normal? {
          var arm := if taken then yes else no;
          TreeOrderly(strict, fuel, p, a, env, arm, q.d, r);
          OrderlyOn(strict, p.native, |d.params|, d, q.d, r.out, r.d);
        }
      case Loop(body) => LoopOrderly(strict, fuel, fuel, p, a, env, body, d, r);
      case Var(v, body) =>
        var f := p.funcs[a.fn];
        if v < |f.vars| && f.vars[v] < |f.types| {
          var env1, d1 := env[v := |d.mem.storage|], Grow(d, f.types[f.vars[v]].size, Byte(0));
          TreeOrderly(strict, fuel, p, a, env1, body, d1, Exec(fuel, p, a, env1, body, d1));
        }
      case CrashPad(_, _) => PadOrderly(strict, fuel, p, a, env, t, d, r);
      case Defer(_, _) => DeferOrderly(strict, fuel, p, a, env, t, d, r);
      case _ =>
    }
  }

  lemma {:induction false} PadOrderly(strict: bool, fuel: nat, p: Program, a: Act, env: Env, t: Tree, d: Data, r: Res)
    requires Inside(strict, p, a, d) && (strict ==> TreeWithin(t, Arity(p, a))) && r == Exec(fuel, p, a, env, t, d) && t.CrashPad?
    ensures Orderly(strict, p.native, |d.params|, d, r.out, r.d)
    decreases fuel, 2 * Size(t) - 1, 0
  {
    hide Tame, ProgramWithin;
    var q := Exec(fuel, p, a, env, t.body, d);
    TreeOrderly(strict, fuel, p, a, env, t.body, d, q);
    if q.out.Crashed? { HandlerOrderly(strict, fuel, p, a, env, t.pad, d, q.d, Exec(fuel, p, a, env, t.pad, Restored(q.d, d))); }
  }

  lemma {:induction false} DeferOrderly(strict: bool, fuel: nat, p: Program, a: Act, env: Env, t: Tree, d: Data, r: Res)
    requires Inside(strict, p, a, d) && (strict ==> TreeWithin(t, Arity(p, a))) && r == Exec(fuel, p, a, env, t, d) && t.Defer?
    ensures Orderly(strict, p.native, |d.params|, d, r.out, r.d)
    decreases fuel, 2 * Size(t) - 1, 0
  {
    hide Tame, ProgramWithin;
    var q := Exec(fuel, p, a, env, t.next, d);
    TreeOrderly(strict, fuel, p, a, env, t.next, d, q);
    if q.out.Crashed? {
      HandlerOrderly(strict, fuel, p, a, env, t.cleanup, d, q.d, Exec(fuel, p, a, env, t.cleanup, Restored(q.d, d)));
    } else if q.out.Normal? || q.out.Leaving? {
      var c := Exec(fuel, p, a, env, t.cleanup, q.d);
      TreeOrderly(strict, fuel, p, a, env, t.cleanup, q.d, c);
      CleanupOrderly(strict, p.native, |d.params|, d, q, c, r);
    }
  }

  /** A cleanup that runs because its DEFER is left. */
  lemma CleanupOrderly(strict: bool, native: Native, n: nat, d: Data, q: Res, c: Res, r: Res)
    requires (q.out.Normal? || q.out.Leaving?) && Orderly(strict, native, n, d, q.out, q.d) && Orderly(strict, native, n, q.d, c.out, c.d)
    requires r.d.ans == c.d.ans && r.d.params == c.d.params
    requires r.out == c.out || r.out.Normal? || r.out.Leaving? || r.out.Stuck? || r.out.Torn?
    requires r.out.Normal? || r.out.Leaving? ==> c.out.Normal? || c.out.Leaving?
    ensures Orderly(strict, native, n, d, r.out, r.d)
  {
    hide Tame;
  }

  /** What runs after a crash, with the parameters given back. */
  lemma {:induction false} HandlerOrderly(strict: bool, fuel: nat, p: Program, a: Act, env: Env, t: Tree, d: Data, q: Data, r: Res)
    requires Inside(strict, p, a, d) && (strict ==> TreeWithin(t, Arity(p, a))) && Orderly(strict, p.native, |d.params|, d, Crashed, q)
    requires r == Exec(fuel, p, a, env, t, Restored(q, d))
    ensures Orderly(strict, p.native, |d.params|, d, r.out, r.d) && r.d.ans == q.ans
    decreases fuel, 2 * Size(t) + 1, 0
  {
    hide Tame, ProgramWithin, TreeWithin, Exec;
    var e := Restored(q, d);
    assert |e.params| == |d.params| && e.ans == q.ans;
    TreeOrderly(strict, fuel, p, a, env, t, e, r);
  }

  lemma {:induction false} LoopOrderly(strict: bool, k: nat, fuel: nat, p: Program, a: Act, env: Env, body: Tree, d: Data, r: Res)
    requires Inside(strict, p, a, d) && (strict ==> TreeWithin(body, Arity(p, a))) && r == ExecLoop(k, fuel, p, a, env, body, d)
    ensures Orderly(strict, p.native, |d.params|, d, r.out, r.d)
    decreases fuel, 2 * Size(body) + 1, k
  {
    hide Tame, ProgramWithin, TreeWithin, Exec;
    if k > 0 {
      var q := Exec(fuel, p, a, env, body, d);
      TreeOrderly(strict, fuel, p, a, env, body, d, q);
      if q.out.Normal? {
        LoopOrderly(strict, k - 1, fuel, p, a, env, body, q.d, r);
        OrderlyOn(strict, p.native, |d.params|, d, q.d, r.out, r.d);
      }
    }
  }

  lemma {:induction false} ChainOrderly(strict: bool, fuel: nat, p: Program, a: Act, env: Env, ch: Chain, d: Data, r: Res)
    requires Inside(strict, p, a, d) && (strict ==> ChainWithin(ch, Arity(p, a))) && r == ExecChain(fuel, p, a, env, ch, d)
    ensures Orderly(strict, p.native, |d.params|, d, r.out, r.d)
    decreases fuel, 2 * ChainSize(ch), 0
  {
    hide Tame, ProgramWithin, TreeWithin, Exec;
    if ch.Link? {
      var q := Exec(fuel, p, a, env, ch.cur, d);
      TreeOrderly(strict, fuel, p, a, env, ch.cur, d, q);
      if q.out.Normal? {
        ChainOrderly(strict, fuel, p, a, env, ch.rest, q.d, r);
        OrderlyOn(strict, p.native, |d.params|, d, q.d, r.out, r.d);
      }
    }
  }
}
