/** Removing defers keeps the meaning: the lowered program does what the program with
    defers does, step by step and with the same final state. */
module LoweringProof {
  import opened Memory
  import opened Ir
  import opened Semantics
  import opened Lowering
  import opened LoweringFacts
  import BreakCoverage

  // ----- what a pending break still has to do -----

  /** Running the cleanups of the defers that a break over k scopes leaves, each in the
      environment of its defer. */
  function Unwind(fuel: nat, p: Program, a: Act, path: seq<Around>, envs: seq<Env>, k: nat, d: Data): (r: Res)
    requires a.fn < |p.funcs| && |envs| == |path|
    ensures !r.out.Leaving? && !r.out.Crashed?
    decreases |path|
  {
    if k == 0 || |path| == 0 then Res(Normal, d)
    else if path[0].InBranch? then Unwind(fuel, p, a, path[1..], envs[1..], k, d)
    else if path[0].InScope? then Unwind(fuel, p, a, path[1..], envs[1..], k - 1, d)
    else
      var c := Exec(fuel, p, a, envs[0], path[0].cleanup, d);
      if c.out.Normal? then Unwind(fuel, p, a, path[1..], envs[1..], k - 1, c.d)
      else if c.out.Crashed? then Res(Torn, c.d)
      else if c.out.Leaving? then Res(Stuck, c.d)
      else c
  }

  /** The epilogue stack that a block with these surroundings is lowered with. */
  function Epis(path: seq<Around>): (r: seq<Epi>)
    ensures |r| == |path|
  {
    if |path| == 0 then []
    else [if path[0].InNext? then Pending(Lower(path[0].cleanup, [])) else Nothing] + Epis(path[1..])
  }

  // ----- how a run of the source and a run of the lowered tree correspond -----

  /** Nothing is claimed once a cleanup that a break was running has soft-crashed. */
  predicate Same(r: Res, s: Res) { r.out.Torn? || s == r }

  /** A lowered break has run the pending cleanups before it leaves; everything else is
      the same on both sides. */
  predicate Corresponds(fuel: nat, p: Program, a: Act, path: seq<Around>, envs: seq<Env>, r: Res, s: Res)
    requires a.fn < |p.funcs| && |envs| == |path|
  {
    if r.out.Leaving? then
      var u := Unwind(fuel, p, a, path, envs, r.out.level, r.d);
      u.out.Torn? || s == (if u.out.Normal? then Res(r.out, u.d) else u)
    else Same(r, s)
  }

  /** Every pending cleanup runs in `env` as it would at its defer. */
  ghost predicate CleanupsRun(fuel: nat, p: Program, a: Act, path: seq<Around>, envs: seq<Env>, env: Env)
    requires a.fn < |p.funcs| && |envs| == |path|
  {
    |path| == 0 ||
    ((path[0].InNext? ==>
       Closed(path[0].cleanup) && AgreeOn(env, envs[0], Uses(path[0].cleanup)) &&
       LowersWell(fuel, p, a, path[0].cleanup)) &&
     CleanupsRun(fuel, p, a, path[1..], envs[1..], env))
  }

  /** The correctness of the lowering for one cleanup. */
  ghost predicate LowersWell(fuel: nat, p: Program, a: Act, c: Tree)
    requires a.fn < |p.funcs|
  {
    forall env: Env, d: Data ::
      Same(Exec(fuel, p, a, env, c, d), Exec(fuel, LowerProgram(p), a, env, Lower(c, []), d))
  }

  lemma {:induction false} RebindUnused(fuel: nat, p: Program, a: Act, path: seq<Around>, envs: seq<Env>, env: Env, v: nat, n: nat)
    requires a.fn < |p.funcs| && |envs| == |path|
    requires CleanupsRun(fuel, p, a, path, envs, env) && v !in PendingUses(path)
    ensures CleanupsRun(fuel, p, a, path, envs, env[v := n])
  {
    if |path| > 0 { RebindUnused(fuel, p, a, path[1..], envs[1..], env, v, n); }
  }

  lemma StepIn(fuel: nat, p: Program, a: Act, path: seq<Around>, envs: seq<Env>, env: Env, e: Around)
    requires a.fn < |p.funcs| && |envs| == |path| && CleanupsRun(fuel, p, a, path, envs, env)
    requires e.InNext? ==> Closed(e.cleanup) && LowersWell(fuel, p, a, e.cleanup)
    ensures CleanupsRun(fuel, p, a, [e] + path, [env] + envs, env)
  {
    assert ([e] + path)[1..] == path && ([env] + envs)[1..] == envs;
  }

  // ----- the inlined cleanups of one break -----

  lemma {:induction false} InlinedNearest(path: seq<Around>, n: nat)
    ensures |Inlined(Epis(path), n)| == |Nearest(path, n)|
    ensures forall i :: 0 <= i < |Nearest(path, n)| ==> Inlined(Epis(path), n)[i] == Lower(Nearest(path, n)[i], [])
  {
    if n > 0 && |path| > 0 {
      assert Epis(path)[1..] == Epis(path[1..]);
      InlinedNearest(path[1..], n - 1);
    }
  }

  /** Running the inlined cleanups and then the break is unwinding. */
  lemma {:induction false} InlinedRun(fuel: nat, p: Program, a: Act, path: seq<Around>, envs: seq<Env>, env: Env,
                                      n: nat, k: nat, last: nat, d: Data)
    requires a.fn < |p.funcs| && |envs| == |path| && CleanupsRun(fuel, p, a, path, envs, env)
    requires n <= k && Nearest(path, n) == Crossed(path, k) && last > 0
    ensures var u := Unwind(fuel, p, a, path, envs, k, d);
            var s := ExecChain(fuel, LowerProgram(p), a, env, Sequence(Inlined(Epis(path), n), Break(last)), d);
            u.out.Torn? || s == (if u.out.Normal? then Res(Leaving(last), u.d) else u)
    decreases |path|
  {
    var q := LowerProgram(p);
    if k == 0 || |path| == 0 {
      assert ExecChain(fuel, q, a, env, Link(Break(last), End), d) == Res(Leaving(last), d);
    } else if n == 0 {
      UnwindNothing(fuel, p, a, path, envs, k, d);
      assert ExecChain(fuel, q, a, env, Link(Break(last), End), d) == Res(Leaving(last), d);
    } else {
      var more := if path[0].InBranch? then k else k - 1;
      assert Epis(path)[1..] == Epis(path[1..]);
      BreakCoverage.NearestAgainstCrossed(path[1..], n - 1, more);
      if path[0].InNext? {
        var c, l := path[0].cleanup, Lower(path[0].cleanup, []);
        assert Nearest(path, n)[1..] == Nearest(path[1..], n - 1);
        assert Crossed(path, k)[1..] == Crossed(path[1..], more);
        assert Inlined(Epis(path), n) == [l] + Inlined(Epis(path[1..]), n - 1);
        SameRun(fuel, p, a, env, envs[0], c, d);
        ClosedNeverLeaves(fuel, p, a, env, c, d);
        var r := Exec(fuel, p, a, env, c, d);
        assert Same(r, Exec(fuel, q, a, env, l, d));
        if r.out.Normal? { InlinedRun(fuel, p, a, path[1..], envs[1..], env, n - 1, more, last, r.d); }
      } else {
        assert Inlined(Epis(path), n) == Inlined(Epis(path[1..]), n - 1);
        InlinedRun(fuel, p, a, path[1..], envs[1..], env, n - 1, more, last, d);
      }
    }
  }

  lemma {:induction false} UnwindNothing(fuel: nat, p: Program, a: Act, path: seq<Around>, envs: seq<Env>, k: nat, d: Data)
    requires a.fn < |p.funcs| && |envs| == |path| && Crossed(path, k) == []
    ensures Unwind(fuel, p, a, path, envs, k, d) == Res(Normal, d)
  {
    if k > 0 && |path| > 0 {
      UnwindNothing(fuel, p, a, path[1..], envs[1..], if path[0].InBranch? then k else k - 1, d);
    }
  }

  lemma BreakLowers(fuel: nat, p: Program, a: Act, path: seq<Around>, envs: seq<Env>, env: Env, level: nat, d: Data)
    requires a.fn < |p.funcs| && |envs| == |path| && CleanupsRun(fuel, p, a, path, envs, env)
    requires level > 0 && Reaches(path, level)
    ensures Corresponds(fuel, p, a, path, envs, Exec(fuel, p, a, env, Break(level), d),
                        Exec(fuel, LowerProgram(p), a, env, Lower(Break(level), Epis(path)), d))
  {
    BreakCoverage.InlinedCleanups(path, level);
    var st := [Nothing] + Epis(path);
    assert st[1..] == Epis(path);
    assert Inlined(st, level) == Inlined(Epis(path), level - 1);
    InlinedNearest(path, level - 1);
    if |Inlined(st, level)| == 0 {
      UnwindNothing(fuel, p, a, path, envs, level, d);
    } else {
      InlinedRun(fuel, p, a, path, envs, env, level - 1, level, level + 1, d);
    }
  }

  /** Leaving a scope on both sides. */
  lemma LeaveCorresponds(fuel: nat, p: Program, a: Act, path: seq<Around>, envs: seq<Env>, env: Env, r: Res, s: Res, n: nat)
    requires a.fn < |p.funcs| && |envs| == |path|
    requires Corresponds(fuel, p, a, [InScope] + path, [env] + envs, r, s)
    ensures Corresponds(fuel, p, a, path, envs, Leave(r, n), Leave(s, n))
  {
    var path1, envs1 := [InScope] + path, [env] + envs;
    assert path1[1..] == path && envs1[1..] == envs;
    if r.out.Leaving? {
      var k: nat := r.out.level;
      assert Unwind(fuel, p, a, path1, envs1, k, r.d) == Unwind(fuel, p, a, path, envs, k - 1, r.d);
      if k == 1 { assert Unwind(fuel, p, a, path, envs, 0, r.d) == Res(Normal, r.d); }
    }
  }

  // ----- operations and calls -----

  lemma SimpleOpLowers(p: Program, a: Act, env: Env, op: Op, tys: seq<TypeId>, d: Data)
    requires a.fn < |p.funcs| && !op.Call?
    ensures SimpleOp(LowerProgram(p), LowerProgram(p).funcs[a.fn], a, env, op, tys, d)
         == SimpleOp(p, p.funcs[a.fn], a, env, op, tys, d)
  {
  }

  lemma {:induction false} OpsLower(fuel: nat, p: Program, a: Act, env: Env, ops: seq<Op>, tys: seq<TypeId>, d: Data)
    requires a.fn < |p.funcs| && ProgramLowerable(p)
    ensures var r := RunOps(fuel, p, a, env, ops, tys, d);
            r.out.Torn? || RunOps(fuel, LowerProgram(p), a, env, ops, tys, d) == r
    decreases fuel, 0, |ops| + 1
  {
    if |ops| > 0 {
      var q := LowerProgram(p);
      var r: OpRes;
      if ops[0].Call? {
        var fn := ops[0].fn;
        r := CallOp(fuel, p, p.funcs[a.fn], fn, tys, d);
        if fn < |p.funcs| && ArgsFit(p.funcs[fn].sig, tys) && |d.params| >= |tys| && fuel > 0 {
          FuncLowers(fuel - 1, p, fn, d);
        }
        assert r.out.Torn? || CallOp(fuel, q, q.funcs[a.fn], fn, tys, d) == r;
      } else {
        r := SimpleOp(p, p.funcs[a.fn], a, env, ops[0], tys, d);
        SimpleOpLowers(p, a, env, ops[0], tys, d);
      }
      if r.out.Normal? { OpsLower(fuel, p, a, env, ops[1..], r.tys, r.d); }
    }
  }

  /** The lowered function, called with the same arguments, does the same. */
  lemma {:induction false} FuncLowers(fuel: nat, p: Program, fn: nat, d: Data)
    requires ProgramLowerable(p) && fn < |p.funcs| && Argc(p.funcs[fn].sig) <= |d.params|
    ensures Same(RunFunc(fuel, p, fn, d), RunFunc(fuel, LowerProgram(p), fn, d))
    decreases fuel, 2 * Size(p.funcs[fn].body) + 1, 0
  {
    var f := p.funcs[fn];
    TreeLowers(fuel, p, Act(fn, |d.params| - Argc(f.sig)), [], [], map[], f.body, Grow(d, RETURN_SIZE, Saved));
    assert Epis([]) == [];
  }

  // ----- the main induction -----

  lemma {:induction false} TreeLowers(fuel: nat, p: Program, a: Act, path: seq<Around>, envs: seq<Env>, env: Env, t: Tree, d: Data)
    requires a.fn < |p.funcs| && ProgramLowerable(p) && Lowerable(t, path)
    requires |envs| == |path| && CleanupsRun(fuel, p, a, path, envs, env)
    ensures Corresponds(fuel, p, a, path, envs, Exec(fuel, p, a, env, t, d),
                        Exec(fuel, LowerProgram(p), a, env, Lower(t, Epis(path)), d))
    decreases fuel, 2 * Size(t), 0
  {
    var below := [Nothing] + Epis(path);
    match t
    case Basic(ops) =>
      OpsLower(fuel, p, a, env, ops, [], d);
      OpsNeverLeave(fuel, p, a, env, ops, [], d);
    case Many(kids) =>
      assert Epis([InScope] + path) == below;
      StepIn(fuel, p, a, path, envs, env, InScope);
      ChainLowers(fuel, p, a, [InScope] + path, [env] + envs, env, kids, d);
      LeaveCorresponds(fuel, p, a, path, envs, env, ExecChain(fuel, p, a, env, kids, d),
                       ExecChain(fuel, LowerProgram(p), a, env, LowerChain(kids, below), d), |d.mem.storage|);
    case Branch(cond, yes, no) => BranchLowers(fuel, p, a, path, envs, env, t, d);
    case Loop(body) =>
      assert Epis([InScope] + path) == below;
      LoopLowers(fuel, fuel, p, a, path, envs, env, body, d);
    case Var(v, body) =>
      var f := p.funcs[a.fn];
      if v < |f.vars| && f.vars[v] < |f.types| {
        var n := |d.mem.storage|;
        RebindUnused(fuel, p, a, path, envs, env, v, n);
        assert Epis([InScope] + path) == below;
        StepIn(fuel, p, a, path, envs, env[v := n], InScope);
        var d1 := Grow(d, f.types[f.vars[v]].size, Byte(0));
        TreeLowers(fuel, p, a, [InScope] + path, [env[v := n]] + envs, env[v := n], body, d1);
        LeaveCorresponds(fuel, p, a, path, envs, env[v := n], Exec(fuel, p, a, env[v := n], body, d1),
                         Exec(fuel, LowerProgram(p), a, env[v := n], Lower(body, below), d1), n);
      }
    case Break(level) => if level > 0 { BreakLowers(fuel, p, a, path, envs, env, level, d); }
    case Defer(next, cleanup) => DeferLowers(fuel, p, a, path, envs, env, t, d);
    case _ =>
  }

  lemma {:induction false} BranchLowers(fuel: nat, p: Program, a: Act, path: seq<Around>, envs: seq<Env>, env: Env, t: Tree, d: Data)
    requires a.fn < |p.funcs| && ProgramLowerable(p) && Lowerable(t, path) && t.Branch?
    requires |envs| == |path| && CleanupsRun(fuel, p, a, path, envs, env)
    ensures Corresponds(fuel, p, a, path, envs, Exec(fuel, p, a, env, t, d),
                        Exec(fuel, LowerProgram(p), a, env, Lower(t, Epis(path)), d))
    decreases fuel, 2 * Size(t) - 1, 0
  {
    var below := [Nothing] + Epis(path);
    OpsLower(fuel, p, a, env, t.cond, [], d);
    OpsNeverLeave(fuel, p, a, env, t.cond, [], d);
    var (r, taken) := ExecCond(fuel, p, a, env, t.cond, d);
    if r.out.Normal? {
      var arm := if taken then t.yes else t.no;
      assert Epis([InBranch] + path) == below;
      StepIn(fuel, p, a, path, envs, env, InBranch);
      TreeLowers(fuel, p, a, [InBranch] + path, [env] + envs, env, arm, r.d);
      assert ([env] + envs)[1..] == envs && ([InBranch] + path)[1..] == path;
    }
  }

  lemma {:induction false} DeferLowers(fuel: nat, p: Program, a: Act, path: seq<Around>, envs: seq<Env>, env: Env, t: Tree, d: Data)
    requires a.fn < |p.funcs| && ProgramLowerable(p) && Lowerable(t, path) && t.Defer?
    requires |envs| == |path| && CleanupsRun(fuel, p, a, path, envs, env)
    ensures Corresponds(fuel, p, a, path, envs, Exec(fuel, p, a, env, t, d),
                        Exec(fuel, LowerProgram(p), a, env, Lower(t, Epis(path)), d))
    decreases fuel, 2 * Size(t) - 1, 0
  {
    hide Exec, ProgramLowerable;
    DeferRun(fuel, p, a, env, t.next, t.cleanup, d);
    var q, below := LowerProgram(p), [Nothing] + Epis(path);
    var c := Lower(t.cleanup, []);
    ClosedLowersAlike(t.cleanup, below);
    CleanupLowers(fuel, p, a, t.cleanup);
    var path1, envs1 := [InNext(t.cleanup)] + path, [env] + envs;
    assert path1[1..] == path && envs1[1..] == envs;
    assert Epis(path1) == [Pending(c)] + Epis(path);
    StepIn(fuel, p, a, path, envs, env, InNext(t.cleanup));
    TreeLowers(fuel, p, a, path1, envs1, env, t.next, d);
    var r := Exec(fuel, p, a, env, t.next, d);
    var s := Exec(fuel, q, a, env, Lower(t.next, Epis(path1)), d);
    ClosedNeverLeaves(fuel, p, a, env, t.cleanup, r.d);
    ClosedNeverLeaves(fuel, p, a, env, t.cleanup, Restored(r.d, d));
    assert Same(Exec(fuel, p, a, env, t.cleanup, r.d), Exec(fuel, q, a, env, c, r.d));
    assert Same(Exec(fuel, p, a, env, t.cleanup, Restored(r.d, d)), Exec(fuel, q, a, env, c, Restored(r.d, d)));
    if r.out.Leaving? { UnwindNext(fuel, p, a, path, envs, env, t.cleanup, r.out.level, r.d); }
    LoweredDeferRun(fuel, q, a, env, Lower(t.next, Epis(path1)), c, d);
    assert Lower(t, Epis(path)) == Many(Link(CrashPad(Lower(t.next, Epis(path1)), c), Link(c, End)));
  }

  lemma UnwindNext(fuel: nat, p: Program, a: Act, path: seq<Around>, envs: seq<Env>, env: Env, c: Tree, k: nat, d: Data)
    requires a.fn < |p.funcs| && |envs| == |path| && k > 0
    ensures var x := Exec(fuel, p, a, env, c, d);
            Unwind(fuel, p, a, [InNext(c)] + path, [env] + envs, k, d) ==
              if x.out.Normal? then (if k == 1 then Res(Normal, x.d) else Unwind(fuel, p, a, path, envs, k - 1, x.d))
              else if x.out.Crashed? then Res(Torn, x.d)
              else if x.out.Leaving? then Res(Stuck, x.d) else x
  {
    assert ([InNext(c)] + path)[1..] == path && ([env] + envs)[1..] == envs;
  }

  /** How a defer runs, given how its protected part and its cleanup run. */
  lemma DeferRun(fuel: nat, p: Program, a: Act, env: Env, next: Tree, c: Tree, d: Data)
    requires a.fn < |p.funcs|
    ensures var r := Exec(fuel, p, a, env, next, d);
            var after, again := Exec(fuel, p, a, env, c, r.d), Exec(fuel, p, a, env, c, Restored(r.d, d));
            Exec(fuel, p, a, env, Defer(next, c), d) ==
              if r.out.Normal? then Leave(after, |d.mem.storage|)
              else if r.out.Crashed? then
                (if again.out.Normal? then Res(Crashed, Crashing(again.d, VM_CRASH)) else if again.out.Leaving? then Res(Stuck, again.d) else again)
              else if r.out.Leaving? then
                (if after.out.Normal? then Leave(Res(r.out, after.d), |d.mem.storage|)
                 else if after.out.Leaving? then Res(Stuck, after.d)
                 else if after.out.Crashed? then Res(Torn, after.d) else after)
              else r
  {
  }

  /** How the lowered form of a defer runs, given how its protected part ran. */
  lemma LoweredDeferRun(fuel: nat, q: Program, a: Act, env: Env, next: Tree, c: Tree, d: Data)
    requires a.fn < |q.funcs|
    ensures var s := Exec(fuel, q, a, env, next, d);
            var m := Exec(fuel, q, a, env, Many(Link(CrashPad(next, c), Link(c, End))), d);
            m == if s.out.Normal? then Leave(Exec(fuel, q, a, env, c, s.d), |d.mem.storage|)
                 else if s.out.Crashed? then
                   (var x := Exec(fuel, q, a, env, c, Restored(s.d, d));
                    if x.out.Normal? then Res(Crashed, Crashing(x.d, VM_CRASH)) else Leave(x, |d.mem.storage|))
                 else Leave(s, |d.mem.storage|)
  {
    var s := Exec(fuel, q, a, env, next, d);
    var pad := Exec(fuel, q, a, env, CrashPad(next, c), d);
    var ch := Link(c, End);
    assert ExecChain(fuel, q, a, env, Link(CrashPad(next, c), ch), d) ==
      if pad.out.Normal? then ExecChain(fuel, q, a, env, ch, pad.d) else pad;
    if s.out.Normal? {
      var x := Exec(fuel, q, a, env, c, s.d);
      assert ExecChain(fuel, q, a, env, End, x.d) == Res(Normal, x.d);
      assert ExecChain(fuel, q, a, env, ch, s.d) == x;
    }
  }

  lemma {:induction false} CleanupLowers(fuel: nat, p: Program, a: Act, c: Tree)
    requires a.fn < |p.funcs| && ProgramLowerable(p) && Lowerable(c, []) && Closed(c)
    ensures LowersWell(fuel, p, a, c)
    decreases fuel, 2 * Size(c), 1
  {
    forall env: Env, d: Data
      ensures Same(Exec(fuel, p, a, env, c, d), Exec(fuel, LowerProgram(p), a, env, Lower(c, []), d))
    {
      TreeLowers(fuel, p, a, [], [], env, c, d);
      ClosedNeverLeaves(fuel, p, a, env, c, d);
    }
  }

  lemma {:induction false} ChainLowers(fuel: nat, p: Program, a: Act, path: seq<Around>, envs: seq<Env>, env: Env, ch: Chain, d: Data)
    requires a.fn < |p.funcs| && ProgramLowerable(p) && ChainLowerable(ch, path)
    requires |envs| == |path| && CleanupsRun(fuel, p, a, path, envs, env)
    ensures Corresponds(fuel, p, a, path, envs, ExecChain(fuel, p, a, env, ch, d),
                        ExecChain(fuel, LowerProgram(p), a, env, LowerChain(ch, Epis(path)), d))
    decreases fuel, 2 * ChainSize(ch), 0
  {
    if ch.Link? {
      TreeLowers(fuel, p, a, path, envs, env, ch.cur, d);
      var r := Exec(fuel, p, a, env, ch.cur, d);
      if r.out.Normal? { ChainLowers(fuel, p, a, path, envs, env, ch.rest, r.d); }
    }
  }

  lemma {:induction false} LoopLowers(k: nat, fuel: nat, p: Program, a: Act, path: seq<Around>, envs: seq<Env>, env: Env, body: Tree, d: Data)
    requires a.fn < |p.funcs| && ProgramLowerable(p) && Lowerable(body, [InScope] + path)
    requires |envs| == |path| && CleanupsRun(fuel, p, a, path, envs, env)
    ensures Corresponds(fuel, p, a, path, envs, ExecLoop(k, fuel, p, a, env, body, d),
                        ExecLoop(k, fuel, LowerProgram(p), a, env, Lower(body, [Nothing] + Epis(path)), d))
    decreases fuel, 2 * Size(body) + 1, k
  {
    if k > 0 {
      var path1, envs1 := [InScope] + path, [env] + envs;
      assert path1[1..] == path && envs1[1..] == envs;
      assert Epis(path1) == [Nothing] + Epis(path);
      StepIn(fuel, p, a, path, envs, env, InScope);
      TreeLowers(fuel, p, a, path1, envs1, env, body, d);
      var r := Exec(fuel, p, a, env, body, d);
      var s := Exec(fuel, LowerProgram(p), a, env, Lower(body, Epis(path1)), d);
      LeaveCorresponds(fuel, p, a, path, envs, env, r, s, |d.mem.storage|);
      if r.out.Leaving? && r.out.level == 1 {
        assert Unwind(fuel, p, a, path1, envs1, 1, r.d) == Unwind(fuel, p, a, path, envs, 0, r.d) == Res(Normal, r.d);
      }
      if r.out.Normal? { LoopLowers(k - 1, fuel, p, a, path, envs, env, body, r.d); }
    }
  }
}
