/** A condition that can be read off a program and rules out the one case in which the
    lowering changes its meaning: cleanups without anything that can soft-crash. */
module CalmCleanups {
  import opened Memory
  import opened Ir
  import opened Semantics
  import opened Lowering
  import opened LoweringProof

  predicate CalmOp(op: Op) {
    op.Null? || op.Assign? || (op.Calc? && !op.a.Div?) || op.BitNot? || op.Drop? || op.PushVar? || op.PushArg? ||
    op.PushGlobal? || op.StructAt? || op.SliceFromAr? || op.SliceFromOne?
  }

  predicate CalmOps(ops: seq<Op>) {
    forall op :: op in ops ==> CalmOp(op)
  }

  /** No division, array or slice access, call or CRASH block in the tree. */
  predicate Calm(t: Tree)
    decreases Size(t)
  {
    match t
    case Basic(ops) => CalmOps(ops)
    case Defer(next, cleanup) => Calm(next) && Calm(cleanup)
    case Many(kids) => ChainCalm(kids)
    case CrashPad(body, pad) => Calm(body) && Calm(pad)
    case Branch(cond, yes, no) => CalmOps(cond) && Calm(yes) && Calm(no)
    case Loop(body) => Calm(body)
    case Var(_, body) => Calm(body)
    case SoftCrash => false
    case _ => true
  }

  predicate ChainCalm(ch: Chain)
    decreases ChainSize(ch)
  {
    ch.Link? ==> Calm(ch.cur) && ChainCalm(ch.rest)
  }

  /** Every cleanup in the tree is calm. */
  predicate Tidy(t: Tree)
    decreases Size(t)
  {
    match t
    case Defer(next, cleanup) => Tidy(next) && Tidy(cleanup) && Calm(cleanup)
    case Many(kids) => ChainTidy(kids)
    case CrashPad(body, pad) => Tidy(body) && Tidy(pad)
    case Branch(_, yes, no) => Tidy(yes) && Tidy(no)
    case Loop(body) => Tidy(body)
    case Var(_, body) => Tidy(body)
    case _ => true
  }

  predicate ChainTidy(ch: Chain)
    decreases ChainSize(ch)
  {
    ch.Link? ==> Tidy(ch.cur) && ChainTidy(ch.rest)
  }

  predicate ProgramTidy(p: Program) {
    forall i :: 0 <= i < |p.funcs| ==> Tidy(p.funcs[i].body)
  }

  lemma SimpleOpCalm(p: Program, f: Func, a: Act, env: Env, op: Op, tys: seq<TypeId>, d: Data)
    requires !op.Call?
    ensures var r := SimpleOp(p, f, a, env, op, tys, d).out; !r.Torn? && (CalmOp(op) ==> !r.Crashed?)
  {
    hide Load, Store, LoadNum, StoreNum, LoadCount, StoreCount, LoadPtr, StorePtr, LoadFn, Compute, PtrAdd, Elem, ArgsFit, SameShape;
  }

  lemma {:induction false} OpsCalm(fuel: nat, p: Program, a: Act, env: Env, ops: seq<Op>, tys: seq<TypeId>, d: Data)
    requires a.fn < |p.funcs| && ProgramTidy(p)
    ensures var r := RunOps(fuel, p, a, env, ops, tys, d).out; !r.Torn? && (CalmOps(ops) ==> !r.Crashed?)
    decreases fuel, 0, |ops| + 1
  {
    if |ops| > 0 {
      var r: OpRes;
      if ops[0].Call? {
        r := CallOp(fuel, p, p.funcs[a.fn], ops[0].fn, tys, d);
        FuncCalm(fuel, p, a, ops[0].fn, tys, d);
        assert !CalmOps(ops) by { assert ops[0] in ops; }
      } else {
        r := SimpleOp(p, p.funcs[a.fn], a, env, ops[0], tys, d);
        SimpleOpCalm(p, p.funcs[a.fn], a, env, ops[0], tys, d);
      }
      if r.out.Normal? { OpsCalm(fuel, p, a, env, ops[1..], r.tys, r.d); }
    }
  }

  lemma {:induction false} FuncCalm(fuel: nat, p: Program, a: Act, fn: nat, tys: seq<TypeId>, d: Data)
    requires a.fn < |p.funcs| && ProgramTidy(p)
    ensures !CallOp(fuel, p, p.funcs[a.fn], fn, tys, d).out.Torn?
    decreases fuel, 0, 0
  {
    if fn < |p.funcs| && ArgsFit(p.funcs[fn].sig, tys) && |d.params| >= |tys| && fuel > 0 {
      var f := p.funcs[fn];
      TreeCalm(fuel - 1, p, Act(fn, |d.params| - Argc(f.sig)), map[], f.body, Grow(d, RETURN_SIZE, Saved));
    }
  }

  lemma {:induction false} TreeCalm(fuel: nat, p: Program, a: Act, env: Env, t: Tree, d: Data)
    requires a.fn < |p.funcs| && ProgramTidy(p) && Tidy(t)
    ensures var r := Exec(fuel, p, a, env, t, d).out; !r.Torn? && (Calm(t) ==> !r.Crashed?)
    decreases fuel, 2 * Size(t), 0
  {
    hide RunOps, ExecChain, ExecLoop, ProgramTidy;
    match t
    case Basic(ops) => OpsCalm(fuel, p, a, env, ops, [], d);
    case Many(kids) => ChainRunsCalm(fuel, p, a, env, kids, d);
    case Branch(cond, yes, no) =>
      OpsCalm(fuel, p, a, env, cond, [], d);
      var (r, taken) := ExecCond(fuel, p, a, env, cond, d);
      TreeCalm(fuel, p, a, env, yes, r.d);
      TreeCalm(fuel, p, a, env, no, r.d);
    case Loop(body) => LoopCalm(fuel, fuel, p, a, env, body, d);
    case Var(v, body) =>
      var f := p.funcs[a.fn];
      if v < |f.vars| && f.vars[v] < |f.types| {
        TreeCalm(fuel, p, a, env[v := |d.mem.storage|], body, Grow(d, f.types[f.vars[v]].size, Byte(0)));
      }
    case CrashPad(body, pad) =>
      TreeCalm(fuel, p, a, env, body, d);
      TreeCalm(fuel, p, a, env, pad, Restored(Exec(fuel, p, a, env, body, d).d, d));
    case Defer(next, cleanup) =>
      TreeCalm(fuel, p, a, env, next, d);
      var d1 := Exec(fuel, p, a, env, next, d).d;
      TreeCalm(fuel, p, a, env, cleanup, d1);
      TreeCalm(fuel, p, a, env, cleanup, Restored(d1, d));
    case _ =>
  }

  lemma {:induction false} ChainRunsCalm(fuel: nat, p: Program, a: Act, env: Env, ch: Chain, d: Data)
    requires a.fn < |p.funcs| && ProgramTidy(p) && ChainTidy(ch)
    ensures var r := ExecChain(fuel, p, a, env, ch, d).out; !r.Torn? && (ChainCalm(ch) ==> !r.Crashed?)
    decreases fuel, 2 * ChainSize(ch), 0
  {
    if ch.Link? {
      TreeCalm(fuel, p, a, env, ch.cur, d);
      ChainRunsCalm(fuel, p, a, env, ch.rest, Exec(fuel, p, a, env, ch.cur, d).d);
    }
  }

  lemma {:induction false} LoopCalm(k: nat, fuel: nat, p: Program, a: Act, env: Env, body: Tree, d: Data)
    requires a.fn < |p.funcs| && ProgramTidy(p) && Tidy(body)
    ensures var r := ExecLoop(k, fuel, p, a, env, body, d).out; !r.Torn? && (Calm(body) ==> !r.Crashed?)
    decreases fuel, 2 * Size(body) + 1, k
  {
    if k > 0 {
      TreeCalm(fuel, p, a, env, body, d);
      LoopCalm(k - 1, fuel, p, a, env, body, Exec(fuel, p, a, env, body, d).d);
    }
  }

  /** With calm cleanups the lowered program and the program with defers always have the
      same outcome and the same final state, for every fuel and every start. */
  lemma LoweringAlwaysKeepsMeaning(fuel: nat, p: Program, fn: nat, d: Data)
    requires ProgramLowerable(p) && ProgramTidy(p)
    requires fn < |p.funcs| && Argc(p.funcs[fn].sig) <= |d.params|
    ensures RunFunc(fuel, LowerProgram(p), fn, d) == RunFunc(fuel, p, fn, d)
  {
    FuncLowers(fuel, p, fn, d);
    var f := p.funcs[fn];
    TreeCalm(fuel, p, Act(fn, |d.params| - Argc(f.sig)), map[], f.body, Grow(d, RETURN_SIZE, Saved));
  }

  // ----- exactly when the meaning is kept -----

  predicate EpisTidy(epis: seq<Epi>) { forall k :: 0 <= k < |epis| && epis[k].Pending? ==> Tidy(epis[k].cleanup) }

  lemma {:induction false} InlinedTidy(epis: seq<Epi>, n: nat)
    requires EpisTidy(epis)
    ensures forall c :: c in Inlined(epis, n) ==> Tidy(c)
  {
    if n > 0 && |epis| > 0 {
      assert EpisTidy(epis[1..]);
      InlinedTidy(epis[1..], n - 1);
    }
  }

  lemma {:induction false} SequenceTidy(cs: seq<Tree>, last: Tree)
    requires Tidy(last) && forall c :: c in cs ==> Tidy(c)
    ensures ChainTidy(Sequence(cs, last))
  {
    assert ChainTidy(End);
    if |cs| > 0 { SequenceTidy(cs[1..], last); }
  }

  /** A lowered tree holds no defers, so all its cleanups are calm. */
  lemma {:induction false} LoweredTidy(t: Tree, epis: seq<Epi>)
    requires EpisTidy(epis) && NoPads(t)
    ensures Tidy(Lower(t, epis))
    decreases Size(t)
  {
    var below := [Nothing] + epis;
    match t
    case Break(level) =>
      InlinedTidy(below, level);
      assert Tidy(Break(level + 1));
      SequenceTidy(Inlined(below, level), Break(level + 1));
    case Defer(next, cleanup) =>
      LoweredTidy(cleanup, below);
      var c := Lower(cleanup, below);
      LoweredTidy(next, [Pending(c)] + epis);
      assert ChainTidy(End);
      assert ChainTidy(Link(c, End));
    case Many(kids) => LoweredChainTidy(kids, below);
    case Branch(_, yes, no) => LoweredTidy(yes, below); LoweredTidy(no, below);
    case Loop(body) => LoweredTidy(body, below);
    case Var(_, body) => LoweredTidy(body, below);
    case _ =>
  }

  lemma {:induction false} LoweredChainTidy(ch: Chain, epis: seq<Epi>)
    requires EpisTidy(epis) && ChainNoPads(ch)
    ensures ChainTidy(LowerChain(ch, epis))
    decreases ChainSize(ch)
  {
    assert ChainTidy(End);
    if ch.Link? {
      LoweredTidy(ch.cur, epis);
      LoweredChainTidy(ch.rest, epis);
    }
  }

  predicate NoPads(t: Tree)
    decreases Size(t)
  {
    match t
    case Defer(next, cleanup) => NoPads(next) && NoPads(cleanup)
    case Many(kids) => ChainNoPads(kids)
    case Branch(_, yes, no) => NoPads(yes) && NoPads(no)
    case Loop(body) => NoPads(body)
    case Var(_, body) => NoPads(body)
    case CrashPad(_, _) => false
    case _ => true
  }

  predicate ChainNoPads(ch: Chain)
    decreases ChainSize(ch)
  {
    ch.Link? ==> NoPads(ch.cur) && ChainNoPads(ch.rest)
  }

  lemma {:induction false} LowerableNoPads(t: Tree, path: seq<Around>)
    requires Lowerable(t, path)
    ensures NoPads(t)
    decreases Size(t)
  {
    match t
    case Defer(next, cleanup) => LowerableNoPads(cleanup, []); LowerableNoPads(next, [InNext(cleanup)] + path);
    case Many(kids) => ChainLowerableNoPads(kids, [InScope] + path);
    case Branch(_, yes, no) => LowerableNoPads(yes, [InBranch] + path); LowerableNoPads(no, [InBranch] + path);
    case Loop(body) => LowerableNoPads(body, [InScope] + path);
    case Var(_, body) => LowerableNoPads(body, [InScope] + path);
    case _ =>
  }

  lemma {:induction false} ChainLowerableNoPads(ch: Chain, path: seq<Around>)
    requires ChainLowerable(ch, path)
    ensures ChainNoPads(ch)
    decreases ChainSize(ch)
  {
    if ch.Link? {
      LowerableNoPads(ch.cur, path);
      ChainLowerableNoPads(ch.rest, path);
    }
  }

  lemma LoweredProgramTidy(p: Program)
    requires ProgramLowerable(p)
    ensures ProgramTidy(LowerProgram(p))
  {
    hide Lowerable, Tidy;
    forall i | 0 <= i < |p.funcs| ensures Tidy(LowerProgram(p).funcs[i].body) {
      LowerableNoPads(p.funcs[i].body, []);
      LoweredTidy(p.funcs[i].body, []);
    }
  }

  /** For every run of every program that lowering is meant for: the lowered program does
      the same if and only if no cleanup that a break was running soft-crashed. */
  lemma MeaningKeptExactly(fuel: nat, p: Program, fn: nat, d: Data)
    requires ProgramLowerable(p) && fn < |p.funcs| && Argc(p.funcs[fn].sig) <= |d.params|
    ensures RunFunc(fuel, LowerProgram(p), fn, d) == RunFunc(fuel, p, fn, d) <==> !RunFunc(fuel, p, fn, d).out.Torn?
  {
    hide ProgramLowerable, Exec, Tidy, Lower;
    FuncLowers(fuel, p, fn, d);
    LoweredProgramTidy(p);
    var q := LowerProgram(p);
    TreeCalm(fuel, q, Act(fn, |d.params| - Argc(q.funcs[fn].sig)), map[], q.funcs[fn].body, Grow(d, RETURN_SIZE, Saved));
  }
}
