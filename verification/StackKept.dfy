/** The parameter stack below a block, a range of operations or a call stays what it is; a call that
    ends leaves its outputs there and takes its inputs away. */
module StackKept {
  import opened Memory
  import opened Ir
  import opened Semantics
  import LF = LoweringFacts

  /** What is below the operands of a block or a range stays there, whatever happens. */
  predicate Below(ps: seq<Ptr>, n: nat, qs: seq<Ptr>) { n <= |ps| && n <= |qs| && qs[..n] == ps[..n] }

  lemma SimpleKeepsBelow(p: Program, f: Func, a: Act, env: Env, op: Op, tys: seq<TypeId>, d: Data)
    requires !op.Call? && |tys| <= |d.params|
    ensures var r := SimpleOp(p, f, a, env, op, tys, d);
      Below(d.params, |d.params| - |tys|, r.d.params) && (r.out.Normal? ==> |r.d.params| - |r.tys| == |d.params| - |tys|)
  {
    hide OpValue, OpArray, OpSlice, OpNative;
    if op.CallNative? {
      NativeKeepsBelow(p.native, f.types, tys, d);
    } else if op.Assign? || op.Calc? || op.BitNot? {
      ValueKeepsBelow(f.types, op, tys, d);
    } else if op.ArrPush? || op.ArrAt? || op.ArrDrop? {
      ArrayKeepsBelow(f.types, op, tys, d);
    } else if op.SliceFromAr? || op.SliceFromOne? || op.SliceAt? || op.SliceInc? || op.SliceDec? {
      SliceKeepsBelow(f.types, op, tys, d);
    }
  }

  lemma ValueKeepsBelow(types: seq<Type>, op: Op, tys: seq<TypeId>, d: Data)
    requires (op.Assign? || op.Calc? || op.BitNot?) && |tys| <= |d.params|
    ensures var r := OpValue(types, op, tys, d);
      Below(d.params, |d.params| - |tys|, r.d.params) && (r.out.Normal? ==> |r.d.params| - |r.tys| == |d.params| - |tys|)
  {
    hide Load, Store, LoadNum, StoreNum, Compute, QuotientOverflows;
  }

  lemma ArrayKeepsBelow(types: seq<Type>, op: Op, tys: seq<TypeId>, d: Data)
    requires (op.ArrPush? || op.ArrAt? || op.ArrDrop?) && |tys| <= |d.params|
    ensures var r := OpArray(types, op, tys, d);
      Below(d.params, |d.params| - |tys|, r.d.params) && (r.out.Normal? ==> |r.d.params| - |r.tys| == |d.params| - |tys|)
  {
    hide Load, Store, LoadNum, LoadCount, StoreCount, Elem, PtrAdd;
  }

  lemma SliceKeepsBelow(types: seq<Type>, op: Op, tys: seq<TypeId>, d: Data)
    requires (op.SliceFromAr? || op.SliceFromOne? || op.SliceAt? || op.SliceInc? || op.SliceDec?) && |tys| <= |d.params|
    ensures var r := OpSlice(types, op, tys, d);
      Below(d.params, |d.params| - |tys|, r.d.params) && (r.out.Normal? ==> |r.d.params| - |r.tys| == |d.params| - |tys|)
  {
    hide Load, Store, LoadNum, LoadCount, StoreCount, LoadPtr, StorePtr, StoreSlice, Elem, PtrAdd;
  }

  lemma NativeKeepsBelow(native: Native, types: seq<Type>, tys: seq<TypeId>, d: Data)
    requires |tys| <= |d.params|
    ensures var r := OpNative(native, types, tys, d);
      Below(d.params, |d.params| - |tys|, r.d.params) && (r.out.Normal? ==> |r.d.params| - |r.tys| == |d.params| - |tys|)
  {
    hide LoadFn, CallNativeFn;
  }

  lemma BelowOn(ps: seq<Ptr>, n: nat, qs: seq<Ptr>, k: nat, rs: seq<Ptr>)
    requires Below(ps, n, qs) && Below(qs, k, rs) && n <= k
    ensures Below(ps, n, rs)
  {
    assert rs[..n] == rs[..k][..n] && qs[..n] == qs[..k][..n];
  }

  lemma {:induction false} OpsKeepBelow(fuel: nat, p: Program, a: Act, env: Env, ops: seq<Op>, tys: seq<TypeId>, d: Data)
    requires a.fn < |p.funcs| && |tys| <= |d.params|
    ensures var r := RunOps(fuel, p, a, env, ops, tys, d);
      Below(d.params, |d.params| - |tys|, r.d.params) && (r.out.Normal? ==> |r.d.params| - |r.tys| == |d.params| - |tys|)
    decreases fuel, 0, |ops| + 1
  {
    hide SimpleOp, CallOp;
    if |ops| > 0 {
      var r := if ops[0].Call? then CallOp(fuel, p, p.funcs[a.fn], ops[0].fn, tys, d)
               else SimpleOp(p, p.funcs[a.fn], a, env, ops[0], tys, d);
      if ops[0].Call? {
        CallKeepsBelow(fuel, p, p.funcs[a.fn], ops[0].fn, tys, d);
      } else {
        SimpleKeepsBelow(p, p.funcs[a.fn], a, env, ops[0], tys, d);
      }
      if r.out.Normal? {
        OpsKeepBelow(fuel, p, a, env, ops[1..], r.tys, r.d);
        BelowOn(d.params, |d.params| - |tys|, r.d.params, |r.d.params| - |r.tys|, RunOps(fuel, p, a, env, ops[1..], r.tys, r.d).d.params);
      }
    }
  }

  /** A call that ends takes its inputs off the stack, and leaves the outputs and all below. */
  lemma {:induction false} CallKeepsBelow(fuel: nat, p: Program, f: Func, fn: nat, tys: seq<TypeId>, d: Data)
    requires |tys| <= |d.params|
    ensures var r := CallOp(fuel, p, f, fn, tys, d);
      Below(d.params, |d.params| - |tys|, r.d.params)
      && (r.out.Normal? ==>
           && fn < |p.funcs| && ArgsFit(p.funcs[fn].sig, tys)
           && r.d.params == d.params[..|d.params| - |p.funcs[fn].sig.ins|] && r.tys == tys[..|tys| - |p.funcs[fn].sig.ins|])
    decreases fuel, 0, 0
  {
    hide RunFunc;
    if fn < |p.funcs| && ArgsFit(p.funcs[fn].sig, tys) && fuel > 0 {
      FuncKeepsBelow(fuel - 1, p, fn, d);
      var r := RunFunc(fuel - 1, p, fn, d);
      if !r.out.Normal? { BelowOn(d.params, |d.params| - |tys|, d.params, |d.params|, r.d.params); }
    }
  }

  lemma {:induction false} FuncKeepsBelow(fuel: nat, p: Program, fn: nat, d: Data)
    requires fn < |p.funcs| && Argc(p.funcs[fn].sig) <= |d.params|
    ensures var r := RunFunc(fuel, p, fn, d);
      if r.out.Normal? then r.d.params == d.params[..|d.params| - |p.funcs[fn].sig.ins|] else Below(d.params, |d.params|, r.d.params)
    decreases fuel, 2 * Size(p.funcs[fn].body) + 1, 0
  {
    hide Exec;
    TreeKeepsBelow(fuel, p, Act(fn, |d.params| - Argc(p.funcs[fn].sig)), map[], p.funcs[fn].body, Grow(d, RETURN_SIZE, Saved));
  }

  /** A block leaves the stack as it found it; when it is broken off it may leave more on it. */
  predicate Leaves(d: Data, r: Res) {
    && Below(d.params, |d.params|, r.d.params)
    && (r.out.Normal? || r.out.Leaving? ==> r.d.params == d.params)
  }

  lemma {:induction false} TreeKeepsBelow(fuel: nat, p: Program, a: Act, env: Env, t: Tree, d: Data)
    requires a.fn < |p.funcs|
    ensures Leaves(d, Exec(fuel, p, a, env, t, d))
    decreases fuel, 2 * Size(t), 0
  {
    hide RunOps, ExecChain, ExecLoop, ExecCond, ExecBasic, Below;
    BelowSelf(d.params);
    match t
    case Basic(ops) => BasicKeepsBelow(fuel, p, a, env, ops, d);
    case Many(kids) => ChainKeepsBelow(fuel, p, a, env, kids, d);
    case Branch(cond, yes, no) =>
      CondKeepsBelow(fuel, p, a, env, cond, d);
      var (r, taken) := ExecCond(fuel, p, a, env, cond, d);
      if r.out.Normal? { if taken { TreeKeepsBelow(fuel, p, a, env, yes, r.d); } else { TreeKeepsBelow(fuel, p, a, env, no, r.d); } }
    case Loop(body) => LoopKeepsBelow(fuel, fuel, p, a, env, body, d);
    case Var(v, body) =>
      var f := p.funcs[a.fn];
      if v < |f.vars| && f.vars[v] < |f.types| {
        TreeKeepsBelow(fuel, p, a, env[v := |d.mem.storage|], body, Grow(d, f.types[f.vars[v]].size, Byte(0)));
      }
    case CrashPad(body, pad) =>
      TreeKeepsBelow(fuel, p, a, env, body, d);
      var r := Exec(fuel, p, a, env, body, d);
      RestoredParams(r.d, d);
      TreeKeepsBelow(fuel, p, a, env, pad, Restored(r.d, d));
    case Defer(next, cleanup) => DeferKeepsBelow(fuel, p, a, env, next, cleanup, d);
    case _ =>
  }

  lemma {:induction false} DeferKeepsBelow(fuel: nat, p: Program, a: Act, env: Env, next: Tree, cleanup: Tree, d: Data)
    requires a.fn < |p.funcs|
    ensures Leaves(d, Exec(fuel, p, a, env, Defer(next, cleanup), d))
    decreases fuel, 2 * Size(Defer(next, cleanup)) - 1, 0
  {
    hide Below;
    TreeKeepsBelow(fuel, p, a, env, next, d);
    var r := Exec(fuel, p, a, env, next, d);
    if r.out.Crashed? {
      RestoredParams(r.d, d);
      TreeKeepsBelow(fuel, p, a, env, cleanup, Restored(r.d, d));
    } else if r.out.Normal? || r.out.Leaving? {
      TreeKeepsBelow(fuel, p, a, env, cleanup, r.d);
    }
  }

  lemma BelowSelf(ps: seq<Ptr>)
    ensures Below(ps, |ps|, ps)
  {
  }

  lemma RestoredParams(d: Data, start: Data)
    requires Below(start.params, |start.params|, d.params)
    ensures Restored(d, start).params == start.params
  {
  }

  lemma {:induction false} BasicKeepsBelow(fuel: nat, p: Program, a: Act, env: Env, ops: seq<Op>, d: Data)
    requires a.fn < |p.funcs|
    ensures Leaves(d, ExecBasic(fuel, p, a, env, ops, d))
    decreases fuel, 1, 0
  {
    hide RunOps;
    OpsKeepBelow(fuel, p, a, env, ops, [], d);
    LF.OpsNeverLeave(fuel, p, a, env, ops, [], d);
  }

  lemma {:induction false} CondKeepsBelow(fuel: nat, p: Program, a: Act, env: Env, cond: seq<Op>, d: Data)
    requires a.fn < |p.funcs|
    ensures Leaves(d, ExecCond(fuel, p, a, env, cond, d).0)
    decreases fuel, 1, 0
  {
    hide RunOps, LoadNum;
    OpsKeepBelow(fuel, p, a, env, cond, [], d);
    LF.OpsNeverLeave(fuel, p, a, env, cond, [], d);
  }

  lemma {:induction false} ChainKeepsBelow(fuel: nat, p: Program, a: Act, env: Env, ch: Chain, d: Data)
    requires a.fn < |p.funcs|
    ensures Leaves(d, ExecChain(fuel, p, a, env, ch, d))
    decreases fuel, 2 * ChainSize(ch), 0
  {
    hide Exec;
    if ch.Link? {
      TreeKeepsBelow(fuel, p, a, env, ch.cur, d);
      ChainKeepsBelow(fuel, p, a, env, ch.rest, Exec(fuel, p, a, env, ch.cur, d).d);
    }
  }

  lemma {:induction false} LoopKeepsBelow(k: nat, fuel: nat, p: Program, a: Act, env: Env, body: Tree, d: Data)
    requires a.fn < |p.funcs|
    ensures Leaves(d, ExecLoop(k, fuel, p, a, env, body, d))
    decreases fuel, 2 * Size(body) + 1, k
  {
    hide Exec;
    if k > 0 {
      TreeKeepsBelow(fuel, p, a, env, body, d);
      LoopKeepsBelow(k - 1, fuel, p, a, env, body, Exec(fuel, p, a, env, body, d).d);
    }
  }
}
