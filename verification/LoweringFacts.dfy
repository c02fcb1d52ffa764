/** Facts about runs and lowered trees that the correctness of the lowering rests on. */
module LoweringFacts {
  import opened Memory
  import opened Ir
  import opened Semantics
  import opened Lowering

  // ----- a break never leaves more than its tree allows -----

  lemma {:induction false} LeavingBound(fuel: nat, p: Program, a: Act, env: Env, t: Tree, d: Data, n: nat)
    requires a.fn < |p.funcs| && Escapes(t, n)
    ensures var r := Exec(fuel, p, a, env, t, d); r.out.Leaving? ==> r.out.level <= n
    decreases fuel, 2 * Size(t), 0
  {
    match t
    case Many(kids) => ChainLeavingBound(fuel, p, a, env, kids, d, n + 1);
    case Branch(cond, yes, no) =>
      var (r, taken) := ExecCond(fuel, p, a, env, cond, d);
      CondNeverLeaves(fuel, p, a, env, cond, d);
      LeavingBound(fuel, p, a, env, yes, r.d, n);
      LeavingBound(fuel, p, a, env, no, r.d, n);
    case Loop(body) => LoopLeavingBound(fuel, fuel, p, a, env, body, d, n);
    case Var(v, body) =>
      var f := p.funcs[a.fn];
      if v < |f.vars| && f.vars[v] < |f.types| {
        var d1 := Grow(d, f.types[f.vars[v]].size, Byte(0));
        LeavingBound(fuel, p, a, env[v := |d.mem.storage|], body, d1, n + 1);
      }
    case CrashPad(body, pad) =>
      LeavingBound(fuel, p, a, env, body, d, n);
      LeavingBound(fuel, p, a, env, pad, Restored(Exec(fuel, p, a, env, body, d).d, d), n);
    case Defer(next, cleanup) =>
      LeavingBound(fuel, p, a, env, next, d, n + 1);
      LeavingBound(fuel, p, a, env, cleanup, Exec(fuel, p, a, env, next, d).d, n + 1);
    case Basic(ops) => OpsNeverLeave(fuel, p, a, env, ops, [], d);
    case _ =>
  }

  lemma {:induction false} ChainLeavingBound(fuel: nat, p: Program, a: Act, env: Env, ch: Chain, d: Data, n: nat)
    requires a.fn < |p.funcs| && ChainEscapes(ch, n)
    ensures var r := ExecChain(fuel, p, a, env, ch, d); r.out.Leaving? ==> r.out.level <= n
    decreases fuel, 2 * ChainSize(ch), 0
  {
    if ch.Link? {
      LeavingBound(fuel, p, a, env, ch.cur, d, n);
      ChainLeavingBound(fuel, p, a, env, ch.rest, Exec(fuel, p, a, env, ch.cur, d).d, n);
    }
  }

  lemma {:induction false} LoopLeavingBound(k: nat, fuel: nat, p: Program, a: Act, env: Env, body: Tree, d: Data, n: nat)
    requires a.fn < |p.funcs| && Escapes(body, n + 1)
    ensures var r := ExecLoop(k, fuel, p, a, env, body, d); r.out.Leaving? ==> r.out.level <= n
    decreases fuel, 2 * Size(body) + 1, k
  {
    if k > 0 {
      LeavingBound(fuel, p, a, env, body, d, n + 1);
      LoopLeavingBound(k - 1, fuel, p, a, env, body, Exec(fuel, p, a, env, body, d).d, n);
    }
  }

  lemma {:induction false} OpsNeverLeave(fuel: nat, p: Program, a: Act, env: Env, ops: seq<Op>, tys: seq<TypeId>, d: Data)
    requires a.fn < |p.funcs|
    ensures !RunOps(fuel, p, a, env, ops, tys, d).out.Leaving?
    decreases |ops|
  {
    if |ops| > 0 {
      var r := if ops[0].Call? then CallOp(fuel, p, p.funcs[a.fn], ops[0].fn, tys, d)
               else SimpleOp(p, p.funcs[a.fn], a, env, ops[0], tys, d);
      if ops[0].Call? { CallNeverLeaves(fuel, p, p.funcs[a.fn], ops[0].fn, tys, d); }
      else { SimpleOpNeverLeaves(p, p.funcs[a.fn], a, env, ops[0], tys, d); }
      if r.out.Normal? { OpsNeverLeave(fuel, p, a, env, ops[1..], r.tys, r.d); }
    }
  }

  lemma CallNeverLeaves(fuel: nat, p: Program, f: Func, fn: nat, tys: seq<TypeId>, d: Data)
    ensures !CallOp(fuel, p, f, fn, tys, d).out.Leaving?
  {
    if fn < |p.funcs| && Argc(p.funcs[fn].sig) <= |d.params| && fuel > 0 {
      assert !RunFunc(fuel - 1, p, fn, d).out.Leaving?;
    }
  }

  lemma SimpleOpNeverLeaves(p: Program, f: Func, a: Act, env: Env, op: Op, tys: seq<TypeId>, d: Data)
    requires !op.Call?
    ensures !SimpleOp(p, f, a, env, op, tys, d).out.Leaving?
  {
  }

  lemma CondNeverLeaves(fuel: nat, p: Program, a: Act, env: Env, cond: seq<Op>, d: Data)
    requires a.fn < |p.funcs|
    ensures !ExecCond(fuel, p, a, env, cond, d).0.out.Leaving?
  {
    OpsNeverLeave(fuel, p, a, env, cond, [], d);
  }

  lemma ClosedNeverLeaves(fuel: nat, p: Program, a: Act, env: Env, t: Tree, d: Data)
    requires a.fn < |p.funcs| && Closed(t)
    ensures !Exec(fuel, p, a, env, t, d).out.Leaving?
  {
    LeavingBound(fuel, p, a, env, t, d, 0);
  }

  // ----- a run depends only on the variables the tree uses -----

  ghost predicate AgreeOn(e1: Env, e2: Env, vs: set<nat>) {
    forall v :: v in vs ==> (v in e1 <==> v in e2) && (v in e1 ==> e1[v] == e2[v])
  }

  lemma {:induction false} SameOps(fuel: nat, p: Program, a: Act, e1: Env, e2: Env, ops: seq<Op>, tys: seq<TypeId>, d: Data)
    requires a.fn < |p.funcs| && AgreeOn(e1, e2, OpVars(ops))
    ensures RunOps(fuel, p, a, e1, ops, tys, d) == RunOps(fuel, p, a, e2, ops, tys, d)
    decreases |ops|
  {
    if |ops| > 0 {
      assert OpVars(ops[1..]) <= OpVars(ops);
      if ops[0].PushVar? { assert ops[0].v in OpVars(ops); }
      var r := if ops[0].Call? then CallOp(fuel, p, p.funcs[a.fn], ops[0].fn, tys, d)
               else SimpleOp(p, p.funcs[a.fn], a, e1, ops[0], tys, d);
      if !ops[0].Call? {
        assert SimpleOp(p, p.funcs[a.fn], a, e2, ops[0], tys, d) == r;
      }
      if r.out.Normal? { SameOps(fuel, p, a, e1, e2, ops[1..], r.tys, r.d); }
    }
  }

  lemma {:induction false} SameRun(fuel: nat, p: Program, a: Act, e1: Env, e2: Env, t: Tree, d: Data)
    requires a.fn < |p.funcs| && AgreeOn(e1, e2, Uses(t))
    ensures Exec(fuel, p, a, e1, t, d) == Exec(fuel, p, a, e2, t, d)
    decreases fuel, 2 * Size(t), 0
  {
    hide RunOps, ExecChain, ExecLoop, Restored, Leave, Crashing, Grow, Cut;
    match t
    case Basic(ops) => SameOps(fuel, p, a, e1, e2, ops, [], d);
    case Many(kids) => SameChainRun(fuel, p, a, e1, e2, kids, d);
    case Branch(cond, yes, no) =>
      SameOps(fuel, p, a, e1, e2, cond, [], d);
      var (r, taken) := ExecCond(fuel, p, a, e1, cond, d);
      SameRun(fuel, p, a, e1, e2, yes, r.d);
      SameRun(fuel, p, a, e1, e2, no, r.d);
    case Loop(body) => SameLoopRun(fuel, fuel, p, a, e1, e2, body, d);
    case Var(v, body) =>
      var f := p.funcs[a.fn];
      if v < |f.vars| && f.vars[v] < |f.types| {
        var n := |d.mem.storage|;
        SameRun(fuel, p, a, e1[v := n], e2[v := n], body, Grow(d, f.types[f.vars[v]].size, Byte(0)));
      }
    case CrashPad(body, pad) =>
      SameRun(fuel, p, a, e1, e2, body, d);
      SameRun(fuel, p, a, e1, e2, pad, Restored(Exec(fuel, p, a, e1, body, d).d, d));
    case Defer(next, cleanup) =>
      SameRun(fuel, p, a, e1, e2, next, d);
      var d1 := Exec(fuel, p, a, e1, next, d).d;
      SameRun(fuel, p, a, e1, e2, cleanup, d1);
      SameRun(fuel, p, a, e1, e2, cleanup, Restored(d1, d));
      SameDefer(fuel, p, a, e1, e2, next, cleanup, d);
    case _ =>
  }

  lemma SameDefer(fuel: nat, p: Program, a: Act, e1: Env, e2: Env, next: Tree, c: Tree, d: Data)
    requires a.fn < |p.funcs| && Exec(fuel, p, a, e1, next, d) == Exec(fuel, p, a, e2, next, d)
    requires var d1 := Exec(fuel, p, a, e1, next, d).d;
      && Exec(fuel, p, a, e1, c, d1) == Exec(fuel, p, a, e2, c, d1)
      && Exec(fuel, p, a, e1, c, Restored(d1, d)) == Exec(fuel, p, a, e2, c, Restored(d1, d))
    ensures Exec(fuel, p, a, e1, Defer(next, c), d) == Exec(fuel, p, a, e2, Defer(next, c), d)
  {
    DeferEnds(fuel, p, a, e1, next, c, d);
    DeferEnds(fuel, p, a, e2, next, c, d);
    hide Exec, DeferEnd;
  }

  /** How a defer ends, given how its protected part ended and what the cleanup does next. */
  function DeferEnd(r: Res, after: Res, n: nat): Res {
    if r.out.Normal? then Leave(after, n)
    else if r.out.Crashed? then
      if after.out.Normal? then Res(Crashed, Crashing(after.d, VM_CRASH))
      else if after.out.Leaving? then Res(Stuck, after.d)
      else after
    else if r.out.Leaving? then
      if after.out.Normal? then Leave(Res(r.out, after.d), n)
      else if after.out.Leaving? then Res(Stuck, after.d)
      else if after.out.Crashed? then Res(Torn, after.d)
      else after
    else r
  }

  lemma DeferEnds(fuel: nat, p: Program, a: Act, env: Env, next: Tree, c: Tree, d: Data)
    requires a.fn < |p.funcs|
    ensures var r := Exec(fuel, p, a, env, next, d);
      var start := if r.out.Crashed? then Restored(r.d, d) else r.d;
      Exec(fuel, p, a, env, Defer(next, c), d) == DeferEnd(r, Exec(fuel, p, a, env, c, start), |d.mem.storage|)
  {
    hide Leave, Restored, Crashing;
  }

  lemma {:induction false} SameChainRun(fuel: nat, p: Program, a: Act, e1: Env, e2: Env, ch: Chain, d: Data)
    requires a.fn < |p.funcs| && AgreeOn(e1, e2, ChainUses(ch))
    ensures ExecChain(fuel, p, a, e1, ch, d) == ExecChain(fuel, p, a, e2, ch, d)
    decreases fuel, 2 * ChainSize(ch), 0
  {
    if ch.Link? {
      SameRun(fuel, p, a, e1, e2, ch.cur, d);
      SameChainRun(fuel, p, a, e1, e2, ch.rest, Exec(fuel, p, a, e1, ch.cur, d).d);
    }
  }

  lemma {:induction false} SameLoopRun(k: nat, fuel: nat, p: Program, a: Act, e1: Env, e2: Env, body: Tree, d: Data)
    requires a.fn < |p.funcs| && AgreeOn(e1, e2, Uses(body))
    ensures ExecLoop(k, fuel, p, a, e1, body, d) == ExecLoop(k, fuel, p, a, e2, body, d)
    decreases fuel, 2 * Size(body) + 1, k
  {
    if k > 0 {
      SameRun(fuel, p, a, e1, e2, body, d);
      SameLoopRun(k - 1, fuel, p, a, e1, e2, body, Exec(fuel, p, a, e1, body, d).d);
    }
  }

  // ----- a closed tree is lowered the same everywhere -----

  lemma {:induction false} InlinedLocal(near: seq<Epi>, far: seq<Epi>, n: nat)
    requires n <= |near|
    ensures Inlined(near + far, n) == Inlined(near, n)
  {
    if n > 0 {
      assert (near + far)[1..] == near[1..] + far;
      InlinedLocal(near[1..], far, n - 1);
    }
  }

  lemma {:induction false} LowerLocal(t: Tree, near: seq<Epi>, far: seq<Epi>, n: nat)
    requires Escapes(t, n) && n <= |near|
    ensures Lower(t, near + far) == Lower(t, near)
    decreases Size(t)
  {
    var below := [Nothing] + near;
    assert [Nothing] + (near + far) == below + far;
    match t
    case Break(level) => InlinedLocal(below, far, level);
    case Defer(next, cleanup) =>
      LowerLocal(cleanup, below, far, n + 1);
      var mine := [Pending(Lower(cleanup, below))] + near;
      assert [Pending(Lower(cleanup, below))] + (near + far) == mine + far;
      LowerLocal(next, mine, far, n + 1);
    case CrashPad(body, pad) =>
      LowerLocal(pad, below, far, n);
      var mine := [Pending(Lower(pad, below))] + near;
      assert [Pending(Lower(pad, below))] + (near + far) == mine + far;
      LowerLocal(body, mine, far, n);
    case Many(kids) => LowerChainLocal(kids, below, far, n + 1);
    case Branch(_, yes, no) => LowerLocal(yes, below, far, n); LowerLocal(no, below, far, n);
    case Loop(body) => LowerLocal(body, below, far, n + 1);
    case Var(_, body) => LowerLocal(body, below, far, n + 1);
    case _ =>
  }

  lemma {:induction false} LowerChainLocal(ch: Chain, near: seq<Epi>, far: seq<Epi>, n: nat)
    requires ChainEscapes(ch, n) && n <= |near|
    ensures LowerChain(ch, near + far) == LowerChain(ch, near)
    decreases ChainSize(ch)
  {
    if ch.Link? {
      LowerLocal(ch.cur, near, far, n);
      LowerChainLocal(ch.rest, near, far, n);
    }
  }

  lemma ClosedLowersAlike(t: Tree, epis: seq<Epi>)
    requires Closed(t)
    ensures Lower(t, epis) == Lower(t, [])
  {
    assert [] + epis == epis;
    LowerLocal(t, [], epis, 0);
  }
}
