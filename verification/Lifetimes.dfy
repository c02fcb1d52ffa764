/** Where the variables of a run lie: nested as their VARs are. So what a portal is led to stays on
    the storage until the portal itself is gone. */
module Lifetimes {
  import opened Memory
  import opened Ir
  import opened InternTable
  import opened Places
  import B = Borrow
  import opened PortalRegions
  import opened Semantics

  // ----- the storage never falls below where a run began -----

  function Len(d: Data): nat { |d.mem.storage| }

  lemma SimpleKeepsLen(p: Program, f: Func, a: Act, env: Env, op: Op, tys: seq<TypeId>, d: Data)
    requires !op.Call?
    ensures Len(SimpleOp(p, f, a, env, op, tys, d).d) == Len(d)
  {
    hide OpValue, OpArray, OpSlice, OpNative;
    if op.CallNative? {
      NativeKeepsLen(p.native, f.types, tys, d);
    } else if op.Assign? || op.Calc? || op.BitNot? {
      ValueKeepsLen(f.types, op, tys, d);
    } else if op.ArrPush? || op.ArrAt? || op.ArrDrop? {
      ArrayKeepsLen(f.types, op, tys, d);
    } else if op.SliceFromAr? || op.SliceFromOne? || op.SliceAt? || op.SliceInc? || op.SliceDec? {
      SliceKeepsLen(f.types, op, tys, d);
    }
  }

  lemma StoreKeepsLen(m: Mem, p: Ptr, cells: seq<Cell>)
    ensures Store(m, p, cells).Some? ==> |Store(m, p, cells).value.storage| == |m.storage|
  {
  }

  lemma ValueKeepsLen(types: seq<Type>, op: Op, tys: seq<TypeId>, d: Data)
    requires op.Assign? || op.Calc? || op.BitNot?
    ensures Len(OpValue(types, op, tys, d).d) == Len(d)
  {
    hide Load, Store, LoadNum, Compute, Digits, QuotientOverflows;
    forall m, p, cells ensures Store(m, p, cells).Some? ==> |Store(m, p, cells).value.storage| == |m.storage| { StoreKeepsLen(m, p, cells); }
  }

  lemma ArrayKeepsLen(types: seq<Type>, op: Op, tys: seq<TypeId>, d: Data)
    requires op.ArrPush? || op.ArrAt? || op.ArrDrop?
    ensures Len(OpArray(types, op, tys, d).d) == Len(d)
  {
    hide Load, Store, LoadNum, LoadCount, Digits, Elem, PtrAdd;
    forall m, p, cells ensures Store(m, p, cells).Some? ==> |Store(m, p, cells).value.storage| == |m.storage| { StoreKeepsLen(m, p, cells); }
  }

  lemma SliceKeepsLen(types: seq<Type>, op: Op, tys: seq<TypeId>, d: Data)
    requires op.SliceFromAr? || op.SliceFromOne? || op.SliceAt? || op.SliceInc? || op.SliceDec?
    ensures Len(OpSlice(types, op, tys, d).d) == Len(d)
  {
    hide Load, Store, LoadNum, LoadCount, LoadPtr, Digits, Elem, PtrAdd, WordCells;
    forall m, p, cells ensures Store(m, p, cells).Some? ==> |Store(m, p, cells).value.storage| == |m.storage| { StoreKeepsLen(m, p, cells); }
  }

  lemma NativeKeepsLen(native: Native, types: seq<Type>, tys: seq<TypeId>, d: Data)
    ensures Len(OpNative(native, types, tys, d).d) == Len(d)
  {
    hide LoadFn, ArgsFit;
  }

  lemma {:induction false} OpsKeepLen(fuel: nat, p: Program, a: Act, env: Env, ops: seq<Op>, tys: seq<TypeId>, d: Data)
    requires a.fn < |p.funcs|
    ensures Len(RunOps(fuel, p, a, env, ops, tys, d).d) >= Len(d)
    decreases fuel, 0, |ops| + 1
  {
    hide SimpleOp, CallOp;
    if |ops| > 0 {
      var r := if ops[0].Call? then CallOp(fuel, p, p.funcs[a.fn], ops[0].fn, tys, d)
               else SimpleOp(p, p.funcs[a.fn], a, env, ops[0], tys, d);
      if ops[0].Call? {
        CallKeepsLen(fuel, p, p.funcs[a.fn], ops[0].fn, tys, d);
      } else {
        SimpleKeepsLen(p, p.funcs[a.fn], a, env, ops[0], tys, d);
      }
      if r.out.Normal? { OpsKeepLen(fuel, p, a, env, ops[1..], r.tys, r.d); }
    }
  }

  lemma {:induction false} CallKeepsLen(fuel: nat, p: Program, f: Func, fn: nat, tys: seq<TypeId>, d: Data)
    ensures Len(CallOp(fuel, p, f, fn, tys, d).d) >= Len(d)
    decreases fuel, 0, 0
  {
    hide RunFunc;
    if fn < |p.funcs| && ArgsFit(p.funcs[fn].sig, tys) && |d.params| >= |tys| && fuel > 0 { FuncKeepsLen(fuel - 1, p, fn, d); }
  }

  lemma {:induction false} FuncKeepsLen(fuel: nat, p: Program, fn: nat, d: Data)
    requires fn < |p.funcs| && Argc(p.funcs[fn].sig) <= |d.params|
    ensures Len(RunFunc(fuel, p, fn, d).d) >= Len(d)
    decreases fuel, 2 * Size(p.funcs[fn].body) + 1, 0
  {
    hide Exec;
    TreeKeepsLen(fuel, p, Act(fn, |d.params| - Argc(p.funcs[fn].sig)), map[], p.funcs[fn].body, Grow(d, RETURN_SIZE, Saved));
  }

  lemma {:induction false} TreeKeepsLen(fuel: nat, p: Program, a: Act, env: Env, t: Tree, d: Data)
    requires a.fn < |p.funcs|
    ensures Len(Exec(fuel, p, a, env, t, d).d) >= Len(d)
    decreases fuel, 2 * Size(t), 0
  {
    hide RunOps, ExecChain, ExecLoop, LoadNum;
    match t
    case Basic(ops) => OpsKeepLen(fuel, p, a, env, ops, [], d);
    case Many(kids) => ChainKeepsLen(fuel, p, a, env, kids, d);
    case Branch(cond, yes, no) =>
      OpsKeepLen(fuel, p, a, env, cond, [], d);
      var (r, taken) := ExecCond(fuel, p, a, env, cond, d);
      if r.out.Normal? { if taken { TreeKeepsLen(fuel, p, a, env, yes, r.d); } else { TreeKeepsLen(fuel, p, a, env, no, r.d); } }
    case Loop(body) => LoopKeepsLen(fuel, fuel, p, a, env, body, d);
    case Var(v, body) =>
      var f := p.funcs[a.fn];
      if v < |f.vars| && f.vars[v] < |f.types| {
        TreeKeepsLen(fuel, p, a, env[v := Len(d)], body, Grow(d, f.types[f.vars[v]].size, Byte(0)));
      }
    case CrashPad(body, pad) =>
      TreeKeepsLen(fuel, p, a, env, body, d);
      var r := Exec(fuel, p, a, env, body, d);
      TreeKeepsLen(fuel, p, a, env, pad, Restored(r.d, d));
    case Defer(next, cleanup) =>
      TreeKeepsLen(fuel, p, a, env, next, d);
      var r := Exec(fuel, p, a, env, next, d);
      TreeKeepsLen(fuel, p, a, env, cleanup, r.d);
      TreeKeepsLen(fuel, p, a, env, cleanup, Restored(r.d, d));
    case _ =>
  }

  lemma {:induction false} ChainKeepsLen(fuel: nat, p: Program, a: Act, env: Env, ch: Chain, d: Data)
    requires a.fn < |p.funcs|
    ensures Len(ExecChain(fuel, p, a, env, ch, d).d) >= Len(d)
    decreases fuel, 2 * ChainSize(ch), 0
  {
    hide Exec;
    if ch.Link? {
      TreeKeepsLen(fuel, p, a, env, ch.cur, d);
      ChainKeepsLen(fuel, p, a, env, ch.rest, Exec(fuel, p, a, env, ch.cur, d).d);
    }
  }

  lemma {:induction false} LoopKeepsLen(k: nat, fuel: nat, p: Program, a: Act, env: Env, body: Tree, d: Data)
    requires a.fn < |p.funcs|
    ensures Len(ExecLoop(k, fuel, p, a, env, body, d).d) >= Len(d)
    decreases fuel, 2 * Size(body) + 1, k
  {
    hide Exec;
    if k > 0 {
      TreeKeepsLen(fuel, p, a, env, body, d);
      LoopKeepsLen(k - 1, fuel, p, a, env, body, Exec(fuel, p, a, env, body, d).d);
    }
  }

  // ----- where a run comes to -----

  /** A moment of a run: at a block with operations, under the VARs w. */
  datatype Moment = Moment(w: seq<nat>, env: Env, d: Data)

  /** The run of t, started in d under the VARs w, comes to the moment m in this activation. */
  ghost predicate Comes(fuel: nat, p: Program, a: Act, w: seq<nat>, env: Env, t: Tree, d: Data, m: Moment)
    requires a.fn < |p.funcs|
    decreases fuel, 2 * Size(t), 0
  {
    match t
    case Basic(_) => m == Moment(w, env, d)
    case Many(kids) => ChainComes(fuel, p, a, w, env, kids, d, m)
    case Branch(cond, yes, no) =>
      var (r, taken) := ExecCond(fuel, p, a, env, cond, d);
      m == Moment(w, env, d) || (r.out.Normal? && if taken then Comes(fuel, p, a, w, env, yes, r.d, m) else Comes(fuel, p, a, w, env, no, r.d, m))
    case Loop(body) => LoopComes(fuel, fuel, p, a, w, env, body, d, m)
    case Var(v, body) =>
      var f := p.funcs[a.fn];
      && v < |f.vars| && f.vars[v] < |f.types|
      && Comes(fuel, p, a, w + [v], env[v := Len(d)], body, Grow(d, f.types[f.vars[v]].size, Byte(0)), m)
    case CrashPad(body, pad) =>
      var r := Exec(fuel, p, a, env, body, d);
      Comes(fuel, p, a, w, env, body, d, m) || (r.out.Crashed? && Comes(fuel, p, a, w, env, pad, Restored(r.d, d), m))
    case Defer(next, cleanup) =>
      var r := Exec(fuel, p, a, env, next, d);
      || Comes(fuel, p, a, w, env, next, d, m)
      || ((r.out.Normal? || r.out.Leaving?) && Comes(fuel, p, a, w, env, cleanup, r.d, m))
      || (r.out.Crashed? && Comes(fuel, p, a, w, env, cleanup, Restored(r.d, d), m))
    case _ => false
  }

  ghost predicate ChainComes(fuel: nat, p: Program, a: Act, w: seq<nat>, env: Env, ch: Chain, d: Data, m: Moment)
    requires a.fn < |p.funcs|
    decreases fuel, 2 * ChainSize(ch), 0
  {
    ch.Link? &&
    var r := Exec(fuel, p, a, env, ch.cur, d);
    Comes(fuel, p, a, w, env, ch.cur, d, m) || (r.out.Normal? && ChainComes(fuel, p, a, w, env, ch.rest, r.d, m))
  }

  ghost predicate LoopComes(k: nat, fuel: nat, p: Program, a: Act, w: seq<nat>, env: Env, body: Tree, d: Data, m: Moment)
    requires a.fn < |p.funcs|
    decreases fuel, 2 * Size(body) + 1, k
  {
    k > 0 &&
    var r := Exec(fuel, p, a, env, body, d);
    Comes(fuel, p, a, w, env, body, d, m) || (r.out.Normal? && LoopComes(k - 1, fuel, p, a, w, env, body, r.d, m))
  }

  // ----- nested variables -----

  /** The bytes that a variable takes. */
  function Room(f: Func, v: nat): nat { if v < |f.vars| && f.vars[v] < |f.types| then f.types[f.vars[v]].size else 0 }

  /** Live variables lie on the storage, those of outer VARs wholly below those of inner ones. */
  ghost predicate Stacked(f: Func, w: seq<nat>, env: Env, len: nat) {
    && (forall v :: v in w ==> v in env && env[v] + Room(f, v) <= len)
    && (forall u, v :: u in w && v in w && Innermost(w, u) < Innermost(w, v) ==> u in env && v in env && env[u] + Room(f, u) <= env[v])
  }

  lemma StackedLater(f: Func, w: seq<nat>, env: Env, n: nat, k: nat)
    requires Stacked(f, w, env, n) && n <= k
    ensures Stacked(f, w, env, k)
  {
    hide Innermost;
  }

  lemma StackedIn(f: Func, w: seq<nat>, env: Env, n: nat, v: nat)
    requires Stacked(f, w, env, n)
    ensures Stacked(f, w + [v], env[v := n], n + Room(f, v))
  {
    hide Innermost;
    var w1, env1 := w + [v], env[v := n];
    forall u: nat ensures Innermost(w1, u) == if u == v then |w| + 1 else Innermost(w, u) { InnermostSnoc(w, v, u); }
    assert forall u :: u in w1 <==> u in w || u == v;
  }

  lemma {:induction false} AlwaysStacked(fuel: nat, p: Program, a: Act, w: seq<nat>, env: Env, t: Tree, d: Data, m: Moment)
    requires a.fn < |p.funcs| && Stacked(p.funcs[a.fn], w, env, Len(d)) && Comes(fuel, p, a, w, env, t, d, m)
    ensures Stacked(p.funcs[a.fn], m.w, m.env, Len(m.d))
    decreases fuel, 2 * Size(t), 0
  {
    hide Exec, ExecCond, RunOps, Stacked, ChainComes, LoopComes;
    var f := p.funcs[a.fn];
    match t
    case Many(kids) => ChainStacked(fuel, p, a, w, env, kids, d, m);
    case Branch(cond, yes, no) =>
      if m != Moment(w, env, d) {
        var (r, taken) := ExecCond(fuel, p, a, env, cond, d);
        CondKeepsLen(fuel, p, a, env, cond, d);
        StackedLater(f, w, env, Len(d), Len(r.d));
        if taken { AlwaysStacked(fuel, p, a, w, env, yes, r.d, m); } else { AlwaysStacked(fuel, p, a, w, env, no, r.d, m); }
      }
    case Loop(body) => LoopStacked(fuel, fuel, p, a, w, env, body, d, m);
    case Var(v, body) =>
      StackedIn(f, w, env, Len(d), v);
      AlwaysStacked(fuel, p, a, w + [v], env[v := Len(d)], body, Grow(d, f.types[f.vars[v]].size, Byte(0)), m);
    case CrashPad(body, pad) =>
      var r := Exec(fuel, p, a, env, body, d);
      TreeKeepsLen(fuel, p, a, env, body, d);
      if Comes(fuel, p, a, w, env, body, d, m) {
        AlwaysStacked(fuel, p, a, w, env, body, d, m);
      } else {
        AlwaysStacked(fuel, p, a, w, env, pad, Restored(r.d, d), m);
      }
    case Defer(next, cleanup) => DeferStacked(fuel, p, a, w, env, next, cleanup, d, m);
    case _ =>
  }

  lemma {:induction false} DeferStacked(fuel: nat, p: Program, a: Act, w: seq<nat>, env: Env, next: Tree, cleanup: Tree, d: Data, m: Moment)
    requires a.fn < |p.funcs| && Stacked(p.funcs[a.fn], w, env, Len(d)) && Comes(fuel, p, a, w, env, Defer(next, cleanup), d, m)
    ensures Stacked(p.funcs[a.fn], m.w, m.env, Len(m.d))
    decreases fuel, 2 * Size(Defer(next, cleanup)) - 1, 0
  {
    hide Exec, Stacked;
    var r := Exec(fuel, p, a, env, next, d);
    TreeKeepsLen(fuel, p, a, env, next, d);
    if Comes(fuel, p, a, w, env, next, d, m) {
      AlwaysStacked(fuel, p, a, w, env, next, d, m);
    } else if r.out.Crashed? {
      AlwaysStacked(fuel, p, a, w, env, cleanup, Restored(r.d, d), m);
    } else {
      StackedLater(p.funcs[a.fn], w, env, Len(d), Len(r.d));
      AlwaysStacked(fuel, p, a, w, env, cleanup, r.d, m);
    }
  }

  lemma CondKeepsLen(fuel: nat, p: Program, a: Act, env: Env, cond: seq<Op>, d: Data)
    requires a.fn < |p.funcs|
    ensures Len(ExecCond(fuel, p, a, env, cond, d).0.d) >= Len(d)
  {
    hide RunOps, LoadNum;
    OpsKeepLen(fuel, p, a, env, cond, [], d);
  }

  lemma {:induction false} ChainStacked(fuel: nat, p: Program, a: Act, w: seq<nat>, env: Env, ch: Chain, d: Data, m: Moment)
    requires a.fn < |p.funcs| && Stacked(p.funcs[a.fn], w, env, Len(d)) && ChainComes(fuel, p, a, w, env, ch, d, m)
    ensures Stacked(p.funcs[a.fn], m.w, m.env, Len(m.d))
    decreases fuel, 2 * ChainSize(ch), 0
  {
    hide Exec, Stacked, Comes;
    if Comes(fuel, p, a, w, env, ch.cur, d, m) {
      AlwaysStacked(fuel, p, a, w, env, ch.cur, d, m);
    } else {
      var r := Exec(fuel, p, a, env, ch.cur, d);
      TreeKeepsLen(fuel, p, a, env, ch.cur, d);
      StackedLater(p.funcs[a.fn], w, env, Len(d), Len(r.d));
      ChainStacked(fuel, p, a, w, env, ch.rest, r.d, m);
    }
  }

  lemma {:induction false} LoopStacked(k: nat, fuel: nat, p: Program, a: Act, w: seq<nat>, env: Env, body: Tree, d: Data, m: Moment)
    requires a.fn < |p.funcs| && Stacked(p.funcs[a.fn], w, env, Len(d)) && LoopComes(k, fuel, p, a, w, env, body, d, m)
    ensures Stacked(p.funcs[a.fn], m.w, m.env, Len(m.d))
    decreases fuel, 2 * Size(body) + 1, k
  {
    hide Exec, Stacked, Comes;
    if Comes(fuel, p, a, w, env, body, d, m) {
      AlwaysStacked(fuel, p, a, w, env, body, d, m);
    } else {
      var r := Exec(fuel, p, a, env, body, d);
      TreeKeepsLen(fuel, p, a, env, body, d);
      StackedLater(p.funcs[a.fn], w, env, Len(d), Len(r.d));
      LoopStacked(k - 1, fuel, p, a, w, env, body, r.d, m);
    }
  }

  // ----- portals and what they hold -----

  /** In a function that passes the first pass, every hold is made in some block; and whenever a
      run of the function comes to that block, the portal's variable is on the storage, and the
      variable that it is led to lies wholly below it, or is the same. So the one is there
      until the other is gone, as the storage is cut back from the top. */
  lemma BackingIsThere(k: Look, p: Program, fn: nat, fuel: nat, d: Data, g1: B.Graph, portal: Place, e: B.Edge) returns (w: seq<nat>)
    requires fn < |p.funcs| && k.s.f == p.funcs[fn] && Argc(p.funcs[fn].sig) <= |d.params|
    requires Scoped(k.s.f.body, []) && FuncPass(k, map[]) == Some(g1) && e in B.EdgesAt(g1, portal)
    ensures Stands(k.s.f.body, [], w)
    ensures RootOf(portal).Root? && RootOf(portal).kind.PAR_LOCAL? && RootOf(e.to).Root?
    ensures var a, v := Act(fn, |d.params| - Argc(p.funcs[fn].sig)), RootOf(portal).idx;
      forall m: Moment :: Comes(fuel, p, a, [], map[], k.s.f.body, Grow(d, RETURN_SIZE, Saved), m) && m.w == w ==>
        && v in m.env && m.env[v] + Room(k.s.f, v) <= |m.d.mem.storage|
        && (RootOf(e.to).kind.PAR_LOCAL? ==>
             var u := RootOf(e.to).idx;
             u in m.env && (u == v || m.env[u] + Room(k.s.f, u) <= m.env[v]))
  {
    hide FuncPass, Comes, Stands, Scoped, Outlives;
    HoldsOutlive(k, g1, portal, e);
    w :| Stands(k.s.f.body, [], w) && Fit(k, w, portal, e);
    OutlivesIs(w, portal, e.to);
    var a, d1 := Act(fn, |d.params| - Argc(p.funcs[fn].sig)), Grow(d, RETURN_SIZE, Saved);
    var v, b := RootOf(portal).idx, RootOf(e.to);
    assert Stacked(k.s.f, [], map[], Len(d1));
    forall m: Moment | Comes(fuel, p, a, [], map[], k.s.f.body, d1, m) && m.w == w
      ensures v in m.env && m.env[v] + Room(k.s.f, v) <= |m.d.mem.storage|
      ensures b.kind.PAR_LOCAL? ==> b.idx in m.env && (b.idx == v || m.env[b.idx] + Room(k.s.f, b.idx) <= m.env[v])
    {
      AlwaysStacked(fuel, p, a, [], map[], k.s.f.body, d1, m);
      if b.kind.PAR_LOCAL? && b.idx != v { assert Innermost(w, b.idx) != Innermost(w, v); }
    }
  }
}
