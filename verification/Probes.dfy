/** A program with probes and the scopes they need: it does what the program does without them. */
module Probes {
  import opened Memory
  import opened Ir
  import opened Semantics
  import opened Lowering
  import opened LoweringFacts
  import opened Cleanup

  /** The operations but for probes. */
  function Quiet(ops: seq<Op>): (q: seq<Op>)
    ensures Silent(q) && (forall op :: op in q <==> op in ops && !op.Null?)
  {
    if |ops| == 0 then [] else
    (if ops[0].Null? then [] else [ops[0]]) + Quiet(ops[1..])
  }

  // ----- trees with probes -----

  /** A break that leaves l scopes leaves this many where w[i] more were put directly inside
      scope i. */
  function Up(l: nat, w: seq<nat>): (n: nat)
    ensures n >= l && (l == 0 ==> n == 0)
  {
    if l == 0 || |w| == 0 then l else 1 + w[0] + Up(l - 1, w[1..])
  }

  /** One more scope directly inside the innermost one. */
  function Bump(w: seq<nat>): seq<nat>
    requires |w| > 0
  {
    w[0 := w[0] + 1]
  }

  /** A scope that holds a probe and one more block. */
  predicate Probing(u: Tree) {
    u.Many? && u.kids.Link? && u.kids.rest.Link? && u.kids.rest.rest.End?
    && u.kids.cur.Basic? && |u.kids.cur.ops| == 1 && u.kids.cur.ops[0].Null?
  }

  /** u is t with probes, where w tells of the scopes put around it. */
  predicate With(t: Tree, u: Tree, w: seq<nat>)
    requires |w| > 0
    decreases Size(u)
  {
    || (Probing(u) && (SmallerInside(u); With(t, u.kids.rest.cur, Bump(w))))
    || match t
       case Basic(ops) => u == Basic(Quiet(ops))
       case Defer(next, cleanup) => u.Defer? && With(next, u.next, [0] + w) && With(cleanup, u.cleanup, [0] + w)
       case Many(kids) => u.Many? && WithChain(kids, u.kids, [0] + w)
       case CrashPad(body, pad) => u.CrashPad? && With(body, u.body, w) && With(pad, u.pad, w)
       case Branch(cond, yes, no) => u.Branch? && u.cond == Quiet(cond) && With(yes, u.yes, w) && With(no, u.no, w)
       case Loop(body) => u.Loop? && With(body, u.body, [0] + w)
       case Break(level) => u == Break(Up(level, w))
       case Var(v, body) => u.Var? && u.v == v && With(body, u.body, [0] + w)
       case _ => u == t
  }

  predicate WithChain(ch: Chain, dh: Chain, w: seq<nat>)
    requires |w| > 0
    decreases ChainSize(dh)
  {
    match ch
    case Link(cur, rest) => dh.Link? && With(cur, dh.cur, w) && WithChain(rest, dh.rest, w)
    case _ => dh == ch
  }

  lemma SmallerInside(u: Tree)
    requires Probing(u)
    ensures Size(u.kids.rest.cur) < Size(u)
  {
    assert ChainSize(u.kids) == 1 + Size(u.kids.cur) + ChainSize(u.kids.rest);
    assert ChainSize(u.kids.rest) == 1 + Size(u.kids.rest.cur) + ChainSize(u.kids.rest.rest);
  }

  ghost predicate ProgramWith(p: Program, q: Program) {
    && |q.funcs| == |p.funcs| && q.globals == p.globals && q.native == p.native
    && forall i :: 0 <= i < |p.funcs| ==> q.funcs[i] == p.funcs[i].(body := q.funcs[i].body) && With(p.funcs[i].body, q.funcs[i].body, [0])
  }

  // ----- it does the same -----

  /** The same but for the log. */
  predicate Like(d: Data, e: Data) { e == d.(log := e.log) }

  predicate Alike(r: Res, s: Res) { r.out == s.out && Like(r.d, s.d) }

  predicate OpsAlike(r: OpRes, s: OpRes) { r.out == s.out && r.tys == s.tys && Like(r.d, s.d) }

  lemma TopsAlike(d: Data, e: Data)
    requires Like(d, e) && |d.params| >= 1
    ensures Top(e) == Top(d) && Like(Pop(d, 1), Pop(e, 1)) && (|d.params| >= 2 ==> Second(e) == Second(d))
  {
  }

  lemma DoneAlike(m: Option<Mem>, d: Data, e: Data, tys: seq<TypeId>)
    requires Like(d, e)
    ensures OpsAlike(Done(m, d, tys), Done(m, e, tys))
  {
  }

  lemma ValueAlike(types: seq<Type>, op: Op, tys: seq<TypeId>, d: Data, e: Data)
    requires (op.Assign? || op.Calc? || op.BitNot?) && Like(d, e)
    ensures OpsAlike(OpValue(types, op, tys, d), OpValue(types, op, tys, e))
  {
    hide Load, Store, LoadNum, StoreNum, Compute, Top, Second, Pop, Done, QuotientOverflows, LastTypes;
    if |d.params| >= 1 {
      TopsAlike(d, e);
      var x, y, rest := Pop(d, 1), Pop(e, 1), if |tys| > 0 then tys[..|tys| - 1] else [];
      forall m: Option<Mem> ensures OpsAlike(Done(m, d, tys), Done(m, e, tys)) { DoneAlike(m, d, e, tys); }
      forall m: Option<Mem> ensures OpsAlike(Done(m, x, rest), Done(m, y, rest)) { DoneAlike(m, x, y, rest); }
    }
  }

  lemma ArrayAlike(types: seq<Type>, op: Op, tys: seq<TypeId>, d: Data, e: Data)
    requires (op.ArrPush? || op.ArrAt? || op.ArrDrop?) && Like(d, e)
    ensures OpsAlike(OpArray(types, op, tys, d), OpArray(types, op, tys, e))
  {
    hide Load, Store, LoadNum, LoadCount, StoreCount, PtrAdd, Elem;
  }

  lemma SliceAlike(types: seq<Type>, op: Op, tys: seq<TypeId>, d: Data, e: Data)
    requires (op.SliceFromAr? || op.SliceFromOne? || op.SliceAt? || op.SliceInc? || op.SliceDec?) && Like(d, e)
    ensures OpsAlike(OpSlice(types, op, tys, d), OpSlice(types, op, tys, e))
  {
    hide LoadNum, LoadCount, StoreCount, LoadPtr, StorePtr, PtrAdd, Elem;
  }

  lemma NativeAlike(native: Native, types: seq<Type>, tys: seq<TypeId>, d: Data, e: Data)
    requires Like(d, e)
    ensures OpsAlike(OpNative(native, types, tys, d), OpNative(native, types, tys, e))
  {
    hide LoadFn, ArgsFit, CallNativeFn;
  }

  lemma PushAlike(globals: seq<Global>, f: Func, body: Tree, a: Act, env: Env, op: Op, tys: seq<TypeId>, d: Data, e: Data)
    requires (op.PushVar? || op.PushArg? || op.PushGlobal?) && Like(d, e)
    ensures OpsAlike(OpPush(globals, f, a, env, op, tys, d), OpPush(globals, f.(body := body), a, env, op, tys, e))
  {
  }

  /** The same, where breaks leave more scopes. */
  predicate AlikeUp(r: Res, s: Res, w: seq<nat>) {
    && (if r.out.Leaving? then s.out == Leaving(Up(r.out.level, w)) else s.out == r.out)
    && Like(r.d, s.d)
  }

  lemma LeaveUp(r: Res, s: Res, w: seq<nat>, len: nat)
    requires AlikeUp(r, s, [0] + w)
    ensures AlikeUp(Leave(r, len), Leave(s, len), w)
  {
    assert ([0] + w)[1..] == w;
    if r.out.Leaving? { assert Up(r.out.level, [0] + w) == 1 + Up(r.out.level - 1, w); }
  }

  lemma LeaveProbe(r: Res, s: Res, w: seq<nat>, len: nat)
    requires |w| > 0 && AlikeUp(r, s, Bump(w))
    ensures AlikeUp(r, Leave(s, len), w)
  {
    assert Bump(w)[1..] == w[1..];
  }

  lemma EndUp(r: Res, s: Res, c: Res, x: Res, w: seq<nat>, len: nat)
    requires AlikeUp(r, s, [0] + w) && AlikeUp(c, x, [0] + w)
    ensures AlikeUp(DeferEnd(r, c, len), DeferEnd(s, x, len), w)
  {
    if r.out.Normal? {
      LeaveUp(c, x, w, len);
    } else if r.out.Leaving? && c.out.Normal? {
      LeaveUp(Res(r.out, c.d), Res(s.out, x.d), w, len);
    }
  }

  // ----- runs -----

  lemma SimpleOpAlike(p: Program, q: Program, f: Func, body: Tree, a: Act, env: Env, op: Op, tys: seq<TypeId>, d: Data, e: Data)
    requires !op.Call? && !op.Null? && Like(d, e) && q.globals == p.globals && q.native == p.native
    ensures OpsAlike(SimpleOp(p, f, a, env, op, tys, d), SimpleOp(q, f.(body := body), a, env, op, tys, e))
  {
    hide OpValue, OpArray, OpSlice, OpNative, OpPush;
    if op.CallNative? {
      NativeAlike(p.native, f.types, tys, d, e);
    } else if op.PushVar? || op.PushArg? || op.PushGlobal? {
      PushAlike(p.globals, f, body, a, env, op, tys, d, e);
    } else if op.Assign? || op.Calc? || op.BitNot? {
      ValueAlike(f.types, op, tys, d, e);
    } else if op.ArrPush? || op.ArrAt? || op.ArrDrop? {
      ArrayAlike(f.types, op, tys, d, e);
    } else if !op.Drop? && !op.StructAt? {
      SliceAlike(f.types, op, tys, d, e);
    }
  }

  lemma SameFunc(p: Program, q: Program, fn: nat)
    requires ProgramWith(p, q) && fn < |p.funcs|
    ensures |q.funcs| == |p.funcs| && q.globals == p.globals && q.native == p.native
    ensures q.funcs[fn] == p.funcs[fn].(body := q.funcs[fn].body) && With(p.funcs[fn].body, q.funcs[fn].body, [0])
  {
  }

  lemma {:induction false} OpsRunAlike(fuel: nat, p: Program, q: Program, a: Act, env: Env, ops: seq<Op>, tys: seq<TypeId>, d: Data, e: Data)
    requires ProgramWith(p, q) && a.fn < |p.funcs| && Like(d, e)
    ensures OpsAlike(RunOps(fuel, p, a, env, ops, tys, d), RunOps(fuel, q, a, env, Quiet(ops), tys, e))
    decreases fuel, 0, |ops| + 1
  {
    hide SimpleOp, CallOp, ProgramWith, With;
    SameFunc(p, q, a.fn);
    if |ops| > 0 {
      var rest := ops[1..];
      if ops[0].Null? {
        NullPassed(p, a, env, ops[0], tys, d);
        assert [] + Quiet(rest) == Quiet(rest);
        OpsRunAlike(fuel, p, q, a, env, rest, tys, d.(log := d.log + [ops[0].tag]), e);
      } else {
        var r := if ops[0].Call? then CallOp(fuel, p, p.funcs[a.fn], ops[0].fn, tys, d)
                 else SimpleOp(p, p.funcs[a.fn], a, env, ops[0], tys, d);
        var s := if ops[0].Call? then CallOp(fuel, q, q.funcs[a.fn], ops[0].fn, tys, e)
                 else SimpleOp(q, q.funcs[a.fn], a, env, ops[0], tys, e);
        if ops[0].Call? {
          CallAlike(fuel, p, q, a, ops[0].fn, tys, d, e);
        } else {
          SimpleOpAlike(p, q, p.funcs[a.fn], q.funcs[a.fn].body, a, env, ops[0], tys, d, e);
        }
        assert Quiet(ops)[0] == ops[0] && Quiet(ops)[1..] == Quiet(rest);
        if r.out.Normal? { OpsRunAlike(fuel, p, q, a, env, rest, r.tys, r.d, s.d); }
      }
    }
  }

  lemma NullPassed(p: Program, a: Act, env: Env, op: Op, tys: seq<TypeId>, d: Data)
    requires a.fn < |p.funcs| && op.Null?
    ensures SimpleOp(p, p.funcs[a.fn], a, env, op, tys, d) == OpRes(Normal, d.(log := d.log + [op.tag]), tys)
  {
  }

  lemma {:induction false} CallAlike(fuel: nat, p: Program, q: Program, a: Act, fn: nat, tys: seq<TypeId>, d: Data, e: Data)
    requires ProgramWith(p, q) && a.fn < |p.funcs| && Like(d, e)
    ensures a.fn < |q.funcs| && OpsAlike(CallOp(fuel, p, p.funcs[a.fn], fn, tys, d), CallOp(fuel, q, q.funcs[a.fn], fn, tys, e))
    decreases fuel, 0, 0
  {
    hide RunFunc, ProgramWith, With;
    SameFunc(p, q, a.fn);
    if fn < |p.funcs| {
      SameFunc(p, q, fn);
      if ArgsFit(p.funcs[fn].sig, tys) && |d.params| >= |tys| && fuel > 0 { FuncAlike(fuel - 1, p, q, fn, d, e); }
    }
  }

  /** The program with probes does what the program does, but for the log. */
  lemma {:induction false} FuncAlike(fuel: nat, p: Program, q: Program, fn: nat, d: Data, e: Data)
    requires ProgramWith(p, q) && fn < |p.funcs| && Argc(p.funcs[fn].sig) <= |d.params| && Like(d, e)
    ensures fn < |q.funcs| && Argc(q.funcs[fn].sig) <= |e.params| && Alike(RunFunc(fuel, p, fn, d), RunFunc(fuel, q, fn, e))
    decreases fuel, 2 * Size(if fn < |q.funcs| then q.funcs[fn].body else Missing) + 1, 0
  {
    hide Exec, ProgramWith, With;
    SameFunc(p, q, fn);
    var f := p.funcs[fn];
    TreeAlike(fuel, p, q, Act(fn, |d.params| - Argc(f.sig)), map[], f.body, q.funcs[fn].body, [0], Grow(d, RETURN_SIZE, Saved), Grow(e, RETURN_SIZE, Saved));
  }

  lemma BasicAlike(fuel: nat, p: Program, q: Program, a: Act, env: Env, ops: seq<Op>, d: Data, e: Data)
    requires a.fn < |p.funcs| && a.fn < |q.funcs| && Like(d, e)
    requires OpsAlike(RunOps(fuel, p, a, env, ops, [], d), RunOps(fuel, q, a, env, Quiet(ops), [], e))
    ensures Alike(ExecBasic(fuel, p, a, env, ops, d), ExecBasic(fuel, q, a, env, Quiet(ops), e))
    ensures var x, y := ExecCond(fuel, p, a, env, ops, d), ExecCond(fuel, q, a, env, Quiet(ops), e);
      Alike(x.0, y.0) && x.1 == y.1
  {
    hide RunOps, Quiet, LoadNum;
  }

  /** A tree with probes, under breaks that leave more scopes. */
  lemma {:induction false} TreeAlike(fuel: nat, p: Program, q: Program, a: Act, env: Env, t: Tree, u: Tree, w: seq<nat>, d: Data, e: Data)
    requires ProgramWith(p, q) && a.fn < |p.funcs| && |w| > 0 && With(t, u, w) && Like(d, e)
    ensures a.fn < |q.funcs| && AlikeUp(Exec(fuel, p, a, env, t, d), Exec(fuel, q, a, env, u, e), w)
    decreases fuel, 2 * Size(u), 0
  {
    SameFunc(p, q, a.fn);
    hide ProgramWith, RunOps, Quiet, ExecBasic, ExecCond, ExecChain, ExecLoop, Leave, Up;
    if Probing(u) && (SmallerInside(u); With(t, u.kids.rest.cur, Bump(w))) {
      ProbingAlike(fuel, p, q, a, env, t, u, w, d, e);
    } else if t.Basic? {
      OpsNeverLeave(fuel, p, a, env, t.ops, [], d);
      OpsRunAlike(fuel, p, q, a, env, t.ops, [], d, e);
      BasicAlike(fuel, p, q, a, env, t.ops, d, e);
      BasicNeverLeaves(fuel, p, a, env, t.ops, d);
    } else if t.Many? {
      ChainAlike(fuel, p, q, a, env, t.kids, u.kids, [0] + w, d, e);
      LeaveUp(ExecChain(fuel, p, a, env, t.kids, d), ExecChain(fuel, q, a, env, u.kids, e), w, |d.mem.storage|);
    } else if t.Branch? {
      BranchAlike(fuel, p, q, a, env, t, u, w, d, e);
    } else if t.Loop? {
      LoopAlike(fuel, fuel, p, q, a, env, t.body, u.body, w, d, e);
    } else if t.Var? {
      VarAlike(fuel, p, q, a, env, t, u, w, d, e);
    } else if t.CrashPad? {
      PadAlike(fuel, p, q, a, env, t, u, w, d, e);
    } else if t.Defer? {
      DeferAlike(fuel, p, q, a, env, t, u, w, d, e);
    }
  }

  lemma BasicNeverLeaves(fuel: nat, p: Program, a: Act, env: Env, ops: seq<Op>, d: Data)
    requires a.fn < |p.funcs| && !RunOps(fuel, p, a, env, ops, [], d).out.Leaving?
    ensures !ExecBasic(fuel, p, a, env, ops, d).out.Leaving?
  {
    hide RunOps;
  }

  lemma {:induction false} ProbingAlike(fuel: nat, p: Program, q: Program, a: Act, env: Env, t: Tree, u: Tree, w: seq<nat>, d: Data, e: Data)
    requires ProgramWith(p, q) && a.fn < |p.funcs| && |w| > 0 && Like(d, e)
    requires Probing(u) && With(t, u.kids.rest.cur, Bump(w))
    ensures a.fn < |q.funcs| && AlikeUp(Exec(fuel, p, a, env, t, d), Exec(fuel, q, a, env, u, e), w)
    decreases fuel, 2 * Size(u) - 1, 0
  {
    SameFunc(p, q, a.fn);
    SmallerInside(u);
    var e1, x := e.(log := e.log + [u.kids.cur.ops[0].tag]), u.kids.rest.cur;
    ProbePassed(fuel, q, a, env, u.kids, e);
    ChainOfOne(fuel, q, a, env, x, e1);
    assert u.kids.rest == Link(x, End);
    assert Exec(fuel, q, a, env, u, e) == Leave(Exec(fuel, q, a, env, x, e1), |e.mem.storage|);
    hide Exec, ProgramWith, With;
    TreeAlike(fuel, p, q, a, env, t, x, Bump(w), d, e1);
    LeaveProbe(Exec(fuel, p, a, env, t, d), Exec(fuel, q, a, env, x, e1), w, |e.mem.storage|);
  }

  lemma ChainOfOne(fuel: nat, p: Program, a: Act, env: Env, t: Tree, d: Data)
    requires a.fn < |p.funcs|
    ensures ExecChain(fuel, p, a, env, Link(t, End), d) == Exec(fuel, p, a, env, t, d)
  {
    hide Exec;
    var r := Exec(fuel, p, a, env, t, d);
    if r.out.Normal? { assert ExecChain(fuel, p, a, env, End, r.d) == r; }
  }

  lemma {:induction false} BranchAlike(fuel: nat, p: Program, q: Program, a: Act, env: Env, t: Tree, u: Tree, w: seq<nat>, d: Data, e: Data)
    requires ProgramWith(p, q) && a.fn < |p.funcs| && |w| > 0 && Like(d, e)
    requires t.Branch? && u.Branch? && u.cond == Quiet(t.cond) && With(t.yes, u.yes, w) && With(t.no, u.no, w)
    ensures a.fn < |q.funcs| && AlikeUp(Exec(fuel, p, a, env, t, d), Exec(fuel, q, a, env, u, e), w)
    decreases fuel, 2 * Size(u) - 1, 0
  {
    SameFunc(p, q, a.fn);
    OpsRunAlike(fuel, p, q, a, env, t.cond, [], d, e);
    BasicAlike(fuel, p, q, a, env, t.cond, d, e);
    CondNeverLeaves(fuel, p, a, env, t.cond, d);
    BranchEnds(fuel, p, a, env, t.cond, t.yes, t.no, d);
    BranchEnds(fuel, q, a, env, u.cond, u.yes, u.no, e);
    hide ExecCond, Exec, Quiet, ProgramWith, With, RunOps;
    var r, s := ExecCond(fuel, p, a, env, t.cond, d).0, ExecCond(fuel, q, a, env, u.cond, e).0;
    TreeAlike(fuel, p, q, a, env, t.yes, u.yes, w, r.d, s.d);
    TreeAlike(fuel, p, q, a, env, t.no, u.no, w, r.d, s.d);
  }

  lemma BranchEnds(fuel: nat, p: Program, a: Act, env: Env, cond: seq<Op>, yes: Tree, no: Tree, d: Data)
    requires a.fn < |p.funcs|
    ensures var c := ExecCond(fuel, p, a, env, cond, d);
      Exec(fuel, p, a, env, Branch(cond, yes, no), d) ==
        if !c.0.out.Normal? then c.0 else if c.1 then Exec(fuel, p, a, env, yes, c.0.d) else Exec(fuel, p, a, env, no, c.0.d)
  {
    hide ExecCond;
  }

  lemma {:induction false} VarAlike(fuel: nat, p: Program, q: Program, a: Act, env: Env, t: Tree, u: Tree, w: seq<nat>, d: Data, e: Data)
    requires ProgramWith(p, q) && a.fn < |p.funcs| && |w| > 0 && Like(d, e)
    requires t.Var? && u.Var? && u.v == t.v && With(t.body, u.body, [0] + w)
    ensures a.fn < |q.funcs| && AlikeUp(Exec(fuel, p, a, env, t, d), Exec(fuel, q, a, env, u, e), w)
    decreases fuel, 2 * Size(u) - 1, 0
  {
    hide ProgramWith, With, ExecCond, ExecBasic, ExecChain, ExecLoop, Restored, Crashing;
    SameFunc(p, q, a.fn);
    var f, len := p.funcs[a.fn], |d.mem.storage|;
    if t.v < |f.vars| && f.vars[t.v] < |f.types| {
      var n := f.types[f.vars[t.v]].size;
      var d1, e1 := Grow(d, n, Byte(0)), Grow(e, n, Byte(0));
      TreeAlike(fuel, p, q, a, env[t.v := len], t.body, u.body, [0] + w, d1, e1);
      LeaveUp(Exec(fuel, p, a, env[t.v := len], t.body, d1), Exec(fuel, q, a, env[t.v := len], u.body, e1), w, len);
    }
  }

  lemma {:induction false} PadAlike(fuel: nat, p: Program, q: Program, a: Act, env: Env, t: Tree, u: Tree, w: seq<nat>, d: Data, e: Data)
    requires ProgramWith(p, q) && a.fn < |p.funcs| && |w| > 0 && Like(d, e)
    requires t.CrashPad? && u.CrashPad? && With(t.body, u.body, w) && With(t.pad, u.pad, w)
    ensures a.fn < |q.funcs| && AlikeUp(Exec(fuel, p, a, env, t, d), Exec(fuel, q, a, env, u, e), w)
    decreases fuel, 2 * Size(u) - 1, 0
  {
    hide ProgramWith, With, ExecCond, ExecBasic, ExecChain, ExecLoop, Up;
    SameFunc(p, q, a.fn);
    TreeAlike(fuel, p, q, a, env, t.body, u.body, w, d, e);
    var r, s := Exec(fuel, p, a, env, t.body, d), Exec(fuel, q, a, env, u.body, e);
    TreeAlike(fuel, p, q, a, env, t.pad, u.pad, w, Restored(r.d, d), Restored(s.d, e));
  }

  lemma {:induction false} DeferAlike(fuel: nat, p: Program, q: Program, a: Act, env: Env, t: Tree, u: Tree, w: seq<nat>, d: Data, e: Data)
    requires ProgramWith(p, q) && a.fn < |p.funcs| && |w| > 0 && Like(d, e)
    requires t.Defer? && u.Defer? && With(t.next, u.next, [0] + w) && With(t.cleanup, u.cleanup, [0] + w)
    ensures a.fn < |q.funcs| && AlikeUp(Exec(fuel, p, a, env, t, d), Exec(fuel, q, a, env, u, e), w)
    decreases fuel, 2 * Size(u) - 1, 0
  {
    SameFunc(p, q, a.fn);
    DeferEnds(fuel, p, a, env, t.next, t.cleanup, d);
    DeferEnds(fuel, q, a, env, u.next, u.cleanup, e);
    hide Exec, ProgramWith, With, DeferEnd, Up;
    TreeAlike(fuel, p, q, a, env, t.next, u.next, [0] + w, d, e);
    var r, s := Exec(fuel, p, a, env, t.next, d), Exec(fuel, q, a, env, u.next, e);
    var d1 := if r.out.Crashed? then Restored(r.d, d) else r.d;
    var e1 := if s.out.Crashed? then Restored(s.d, e) else s.d;
    StartAlike(r, s, d, e);
    hide Restored;
    TreeAlike(fuel, p, q, a, env, t.cleanup, u.cleanup, [0] + w, d1, e1);
    EndUp(r, s, Exec(fuel, p, a, env, t.cleanup, d1), Exec(fuel, q, a, env, u.cleanup, e1), w, |d.mem.storage|);
  }

  /** What the cleanup starts from. */
  lemma StartAlike(r: Res, s: Res, d: Data, e: Data)
    requires (r.out.Crashed? <==> s.out.Crashed?) && Like(r.d, s.d) && Like(d, e)
    ensures Like(if r.out.Crashed? then Restored(r.d, d) else r.d, if s.out.Crashed? then Restored(s.d, e) else s.d)
  {
  }

  lemma {:induction false} ChainAlike(fuel: nat, p: Program, q: Program, a: Act, env: Env, ch: Chain, dh: Chain, w: seq<nat>, d: Data, e: Data)
    requires ProgramWith(p, q) && a.fn < |p.funcs| && |w| > 0 && WithChain(ch, dh, w) && Like(d, e)
    ensures a.fn < |q.funcs| && AlikeUp(ExecChain(fuel, p, a, env, ch, d), ExecChain(fuel, q, a, env, dh, e), w)
    decreases fuel, 2 * ChainSize(dh), 0
  {
    hide Exec, ProgramWith, With, Up;
    SameFunc(p, q, a.fn);
    if ch.Link? {
      TreeAlike(fuel, p, q, a, env, ch.cur, dh.cur, w, d, e);
      var r, s := Exec(fuel, p, a, env, ch.cur, d), Exec(fuel, q, a, env, dh.cur, e);
      ChainAlike(fuel, p, q, a, env, ch.rest, dh.rest, w, r.d, s.d);
    }
  }

  lemma {:induction false} LoopAlike(k: nat, fuel: nat, p: Program, q: Program, a: Act, env: Env, body: Tree, ubody: Tree, w: seq<nat>, d: Data, e: Data)
    requires ProgramWith(p, q) && a.fn < |p.funcs| && |w| > 0 && With(body, ubody, [0] + w) && Like(d, e)
    ensures a.fn < |q.funcs| && AlikeUp(ExecLoop(k, fuel, p, a, env, body, d), ExecLoop(k, fuel, q, a, env, ubody, e), w)
    decreases fuel, 2 * Size(ubody) + 1, k
  {
    hide Exec, ProgramWith, With, Up;
    SameFunc(p, q, a.fn);
    if k > 0 {
      TreeAlike(fuel, p, q, a, env, body, ubody, [0] + w, d, e);
      var r, s := Exec(fuel, p, a, env, body, d), Exec(fuel, q, a, env, ubody, e);
      LeaveUp(r, s, w, |d.mem.storage|);
      if r.out.Normal? { LoopAlike(k - 1, fuel, p, q, a, env, body, ubody, w, r.d, s.d); }
    }
  }
}
