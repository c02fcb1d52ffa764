/** Cleanup runs: over whole runs, every activation of a defer runs its cleanup exactly
    once, innermost first. Probes make this visible: a probed defer passes Null(2 * i) when
    its protected part starts and Null(2 * i + 1) when its cleanup starts. */
module Cleanup {
  import opened Memory
  import opened Ir
  import opened Semantics
  import opened Lowering
  import opened LoweringFacts
  import opened LoweringProof

  // ----- probes -----

  predicate Silent(ops: seq<Op>) {
    forall op :: op in ops ==> !op.Null?
  }

  /** Every defer of the tree announces its start and its cleanup, and nothing else uses
      probes. */
  predicate Probed(t: Tree)
    decreases Size(t)
  {
    match t
    case Basic(ops) => Silent(ops)
    case Defer(next, cleanup) =>
      && next.Many? && next.kids.Link? && cleanup.Many? && cleanup.kids.Link?
      && StartsWith(next.kids.cur, cleanup.kids.cur)
      && (RestIsSmaller(next); RestIsSmaller(cleanup); true)
      && ChainProbed(next.kids.rest) && ChainProbed(cleanup.kids.rest)
    case Many(kids) => ChainProbed(kids)
    case CrashPad(body, pad) => Probed(body) && Probed(pad)
    case Branch(cond, yes, no) => Silent(cond) && Probed(yes) && Probed(no)
    case Loop(body) => Probed(body)
    case Var(_, body) => Probed(body)
    case _ => true
  }

  lemma RestIsSmaller(t: Tree)
    requires t.Many? && t.kids.Link?
    ensures ChainSize(t.kids.rest) < Size(t)
  {
    assert ChainSize(t.kids) == 1 + Size(t.kids.cur) + ChainSize(t.kids.rest);
  }

  predicate ChainProbed(ch: Chain)
    decreases ChainSize(ch)
  {
    ch.Link? ==> Probed(ch.cur) && ChainProbed(ch.rest)
  }

  /** A pair of probes for one defer. */
  predicate StartsWith(start: Tree, end: Tree) {
    && start.Basic? && end.Basic? && |start.ops| == 1 && |end.ops| == 1
    && start.ops[0].Null? && end.ops[0].Null?
    && start.ops[0].tag % 2 == 0 && end.ops[0].tag == start.ops[0].tag + 1
  }

  predicate ProgramProbed(p: Program) {
    forall i :: 0 <= i < |p.funcs| ==> Probed(p.funcs[i].body)
  }

  // ----- balanced traces -----

  /** Reads a trace against a stack of defers that are still open. */
  function Match(w: seq<nat>, open: seq<nat>): Option<seq<nat>> {
    if |w| == 0 then Some(open)
    else if w[0] % 2 == 0 then Match(w[1..], [w[0]] + open)
    else if |open| > 0 && open[0] + 1 == w[0] then Match(w[1..], open[1..])
    else None
  }

  /** Every start in w is closed by exactly one cleanup of the same defer, the innermost
      open one first, and there is no other cleanup. */
  ghost predicate Balanced(w: seq<nat>) {
    forall open :: Match(w, open) == Some(open)
  }

  lemma {:induction false} MatchConcat(u: seq<nat>, v: seq<nat>, open: seq<nat>)
    ensures Match(u + v, open) ==
      (match Match(u, open) case None => None case Some(rest) => Match(v, rest))
  {
    if |u| == 0 {
      assert u + v == v;
    } else {
      assert (u + v)[1..] == u[1..] + v;
      if u[0] % 2 == 0 { MatchConcat(u[1..], v, [u[0]] + open); }
      else if |open| > 0 { MatchConcat(u[1..], v, open[1..]); }
    }
  }

  /** The trace went on from d to e by a balanced piece. */
  ghost predicate Extends(d: Data, e: Data) {
    d.log <= e.log && Balanced(e.log[|d.log|..])
  }

  lemma ExtendsChain(d: Data, e: Data, f: Data)
    requires Extends(d, e) && Extends(e, f)
    ensures Extends(d, f)
  {
    var u, v := e.log[|d.log|..], f.log[|e.log|..];
    assert f.log[|d.log|..] == u + v;
    forall open ensures Match(u + v, open) == Some(open) { MatchConcat(u, v, open); }
  }

  lemma ExtendsSame(d: Data, e: Data)
    requires e.log == d.log
    ensures Extends(d, e)
  {
    assert e.log[|d.log|..] == [];
  }

  /** A start, a balanced piece, the matching cleanup and another balanced piece. */
  lemma Bracket(d: Data, e: Data, f: Data, g: Data, h: Data, tag: nat)
    requires tag % 2 == 0
    requires e.log == d.log + [tag] && Extends(e, f) && g.log == f.log + [tag + 1] && Extends(g, h)
    ensures Extends(d, h)
  {
    var u, v := f.log[|e.log|..], h.log[|g.log|..];
    var w := h.log[|d.log|..];
    assert w == [tag] + (u + ([tag + 1] + v));
    forall open ensures Match(w, open) == Some(open) {
      assert w[1..] == u + ([tag + 1] + v);
      MatchConcat(u, [tag + 1] + v, [tag] + open);
      assert ([tag + 1] + v)[1..] == v && ([tag] + open)[1..] == open;
    }
  }

  // ----- all runs -----

  predicate Counted(out: Outcome) { out.Normal? || out.Leaving? || out.Crashed? }

  lemma SimpleOpSilent(p: Program, f: Func, a: Act, env: Env, op: Op, tys: seq<TypeId>, d: Data)
    requires !op.Call? && !op.Null?
    ensures SimpleOp(p, f, a, env, op, tys, d).d.log == d.log
  {
    hide Load, Store, LoadNum, StoreNum, LoadCount, StoreCount, LoadPtr, StorePtr, LoadFn, Compute, PtrAdd, Elem, ArgsFit, SameShape;
  }

  lemma {:induction false} OpsBalanced(fuel: nat, p: Program, a: Act, env: Env, ops: seq<Op>, tys: seq<TypeId>, d: Data)
    requires a.fn < |p.funcs| && ProgramProbed(p) && Silent(ops)
    ensures var r := RunOps(fuel, p, a, env, ops, tys, d); Counted(r.out) ==> Extends(d, r.d)
    decreases fuel, 0, |ops| + 1
  {
    if |ops| == 0 {
      ExtendsSame(d, d);
    } else {
      var r: OpRes;
      if ops[0].Call? {
        var fn := ops[0].fn;
        r := CallOp(fuel, p, p.funcs[a.fn], fn, tys, d);
        if fn < |p.funcs| && ArgsFit(p.funcs[fn].sig, tys) && |d.params| >= |tys| && fuel > 0 {
          FuncBalanced(fuel - 1, p, fn, d);
        }
      } else {
        r := SimpleOp(p, p.funcs[a.fn], a, env, ops[0], tys, d);
        SimpleOpSilent(p, p.funcs[a.fn], a, env, ops[0], tys, d);
        ExtendsSame(d, r.d);
      }
      if r.out.Normal? {
        OpsBalanced(fuel, p, a, env, ops[1..], r.tys, r.d);
        var r1 := RunOps(fuel, p, a, env, ops[1..], r.tys, r.d);
        if Counted(r1.out) { ExtendsChain(d, r.d, r1.d); }
      }
    }
  }

  lemma {:induction false} FuncBalanced(fuel: nat, p: Program, fn: nat, d: Data)
    requires ProgramProbed(p) && fn < |p.funcs| && Argc(p.funcs[fn].sig) <= |d.params|
    ensures var r := RunFunc(fuel, p, fn, d); Counted(r.out) ==> Extends(d, r.d)
    decreases fuel, 2 * Size(p.funcs[fn].body) + 1, 0
  {
    var f := p.funcs[fn];
    TreeBalanced(fuel, p, Act(fn, |d.params| - Argc(f.sig)), map[], f.body, Grow(d, RETURN_SIZE, Saved));
  }

  lemma {:induction false} TreeBalanced(fuel: nat, p: Program, a: Act, env: Env, t: Tree, d: Data)
    requires a.fn < |p.funcs| && ProgramProbed(p) && Probed(t)
    ensures var r := Exec(fuel, p, a, env, t, d); Counted(r.out) ==> Extends(d, r.d)
    decreases fuel, 2 * Size(t), 0
  {
    hide Balanced, RunOps, ExecChain, ExecLoop;
    ExtendsSame(d, d);
    match t
    case Basic(ops) => OpsBalanced(fuel, p, a, env, ops, [], d);
    case Many(kids) => ChainBalanced(fuel, p, a, env, kids, d);
    case Branch(cond, yes, no) =>
      OpsBalanced(fuel, p, a, env, cond, [], d);
      var (r, taken) := ExecCond(fuel, p, a, env, cond, d);
      if r.out.Normal? {
        var arm := if taken then yes else no;
        TreeBalanced(fuel, p, a, env, arm, r.d);
        if Counted(Exec(fuel, p, a, env, t, d).out) { ExtendsChain(d, r.d, Exec(fuel, p, a, env, arm, r.d).d); }
      }
    case Loop(body) => LoopBalanced(fuel, fuel, p, a, env, body, d);
    case Var(v, body) =>
      var f := p.funcs[a.fn];
      if v < |f.vars| && f.vars[v] < |f.types| {
        TreeBalanced(fuel, p, a, env[v := |d.mem.storage|], body, Grow(d, f.types[f.vars[v]].size, Byte(0)));
      }
    case CrashPad(body, pad) =>
      TreeBalanced(fuel, p, a, env, body, d);
      var r := Exec(fuel, p, a, env, body, d);
      if r.out.Crashed? {
        var d1 := Restored(r.d, d);
        TreeBalanced(fuel, p, a, env, pad, d1);
        var c := Exec(fuel, p, a, env, pad, d1);
        if Counted(c.out) { ExtendsChain(d, d1, c.d); }
      }
    case Defer(next, cleanup) => DeferBalanced(fuel, p, a, env, t, d);
    case _ =>
  }

  /** A tree that begins with a probe passes it first. */
  lemma ProbePassed(fuel: nat, p: Program, a: Act, env: Env, kids: Chain, d: Data)
    requires a.fn < |p.funcs| && kids.Link? && kids.cur.Basic? && |kids.cur.ops| == 1 && kids.cur.ops[0].Null?
    ensures var d1 := d.(log := d.log + [kids.cur.ops[0].tag]);
            ExecChain(fuel, p, a, env, kids, d) == ExecChain(fuel, p, a, env, kids.rest, d1)
  {
    var ops, d1 := kids.cur.ops, d.(log := d.log + [kids.cur.ops[0].tag]);
    assert ops[1..] == [];
    assert RunOps(fuel, p, a, env, ops[1..], [], d1) == OpRes(Normal, d1, []);
    assert RunOps(fuel, p, a, env, ops, [], d) == OpRes(Normal, d1, []);
    assert CutParams(d1, |d.params|) == d1 by { assert d1.params[..|d.params|] == d1.params; }
    assert Exec(fuel, p, a, env, kids.cur, d) == Res(Normal, d1);
  }

  lemma {:induction false} DeferBalanced(fuel: nat, p: Program, a: Act, env: Env, t: Tree, d: Data)
    requires a.fn < |p.funcs| && ProgramProbed(p) && Probed(t) && t.Defer?
    ensures var r := Exec(fuel, p, a, env, t, d); Counted(r.out) ==> Extends(d, r.d)
    decreases fuel, 2 * Size(t) - 1, 0
  {
    RestIsSmaller(t.next);
    RestIsSmaller(t.cleanup);
    var tag := t.next.kids.cur.ops[0].tag;
    var e := d.(log := d.log + [tag]);
    ProbePassed(fuel, p, a, env, t.next.kids, d);
    ChainBalanced(fuel, p, a, env, t.next.kids.rest, e);
    var r := Exec(fuel, p, a, env, t.next, d);
    if Counted(r.out) {
      var f := if r.out.Crashed? then Restored(r.d, d) else r.d;
      assert Extends(e, f);
      var g := f.(log := f.log + [tag + 1]);
      ProbePassed(fuel, p, a, env, t.cleanup.kids, f);
      ChainBalanced(fuel, p, a, env, t.cleanup.kids.rest, g);
      var c := Exec(fuel, p, a, env, t.cleanup, f);
      if Counted(c.out) { Bracket(d, e, f, g, c.d, tag); }
    }
  }

  lemma {:induction false} ChainBalanced(fuel: nat, p: Program, a: Act, env: Env, ch: Chain, d: Data)
    requires a.fn < |p.funcs| && ProgramProbed(p) && ChainProbed(ch)
    ensures var r := ExecChain(fuel, p, a, env, ch, d); Counted(r.out) ==> Extends(d, r.d)
    decreases fuel, 2 * ChainSize(ch), 0
  {
    ExtendsSame(d, d);
    if ch.Link? {
      TreeBalanced(fuel, p, a, env, ch.cur, d);
      var r := Exec(fuel, p, a, env, ch.cur, d);
      if r.out.Normal? {
        ChainBalanced(fuel, p, a, env, ch.rest, r.d);
        var r1 := ExecChain(fuel, p, a, env, ch.rest, r.d);
        if Counted(r1.out) { ExtendsChain(d, r.d, r1.d); }
      }
    }
  }

  lemma {:induction false} LoopBalanced(k: nat, fuel: nat, p: Program, a: Act, env: Env, body: Tree, d: Data)
    requires a.fn < |p.funcs| && ProgramProbed(p) && Probed(body)
    ensures var r := ExecLoop(k, fuel, p, a, env, body, d); Counted(r.out) ==> Extends(d, r.d)
    decreases fuel, 2 * Size(body) + 1, k
  {
    if k > 0 {
      TreeBalanced(fuel, p, a, env, body, d);
      var r := Exec(fuel, p, a, env, body, d);
      if r.out.Normal? {
        LoopBalanced(k - 1, fuel, p, a, env, body, r.d);
        var r1 := ExecLoop(k - 1, fuel, p, a, env, body, r.d);
        if Counted(r1.out) { ExtendsChain(d, r.d, r1.d); }
      }
    }
  }

  /** Over every run of the lowered program that ends without a hard crash, each defer
      activation has run its cleanup exactly once, innermost first: normally, by break or
      by soft crash. */
  lemma LoweredCleansUpOnce(fuel: nat, p: Program, fn: nat, d: Data)
    requires ProgramLowerable(p) && ProgramProbed(p)
    requires fn < |p.funcs| && Argc(p.funcs[fn].sig) <= |d.params|
    requires Counted(RunFunc(fuel, p, fn, d).out)
    ensures var s := RunFunc(fuel, LowerProgram(p), fn, d);
            s == RunFunc(fuel, p, fn, d) && Extends(d, s.d)
  {
    FuncLowers(fuel, p, fn, d);
    FuncBalanced(fuel, p, fn, d);
  }
}
