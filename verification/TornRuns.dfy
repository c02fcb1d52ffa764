/** Exactly when cleanup runs exactly once: the lowered program runs some cleanup twice in
    just those runs in which a cleanup that a break was running soft-crashes. */
module TornRuns {
  import opened Memory
  import opened Ir
  import opened Semantics
  import opened Lowering
  import opened LoweringFacts
  import opened LoweringProof
  import opened Cleanup
  import BreakCoverage

  // ----- counting cleanups against starts -----

  /** How many more cleanups than starts a trace holds. */
  function Net(w: seq<nat>): int {
    if |w| == 0 then 0 else Net(w[..|w| - 1]) + (if w[|w| - 1] % 2 == 1 then 1 else -1)
  }

  lemma {:induction false} NetConcat(u: seq<nat>, v: seq<nat>)
    ensures Net(u + v) == Net(u) + Net(v)
    decreases |v|
  {
    if |v| == 0 {
      assert u + v == u;
    } else {
      assert (u + v)[..|u + v| - 1] == u + v[..|v| - 1];
      NetConcat(u, v[..|v| - 1]);
    }
  }

  lemma NetProbe(w: seq<nat>, tag: nat)
    ensures Net(w + [tag]) == Net(w) + (if tag % 2 == 1 then 1 else -1)
  {
    assert (w + [tag])[..|w|] == w;
  }

  lemma {:induction false} MatchCounts(w: seq<nat>, open: seq<nat>)
    requires Match(w, open).Some?
    ensures |Match(w, open).value| == |open| - Net(w)
    decreases |w|
  {
    if |w| > 0 {
      assert [w[0]] + w[1..] == w;
      NetConcat([w[0]], w[1..]);
      NetProbe([], w[0]);
      assert [] + [w[0]] == [w[0]];
      if w[0] % 2 == 0 { MatchCounts(w[1..], [w[0]] + open); } else { MatchCounts(w[1..], open[1..]); }
    }
  }

  /** A balanced piece holds as many cleanups as starts. */
  lemma ExtendsNet(d: Data, e: Data)
    requires Extends(d, e)
    ensures Net(e.log) == Net(d.log)
  {
    var w := e.log[|d.log|..];
    assert Match(w, []) == Some([]);
    MatchCounts(w, []);
    assert e.log == d.log + w;
    NetConcat(d.log, w);
  }

  // ----- what is claimed -----

  /** The run is torn, or will be when the break goes on. */
  predicate TornHere(fuel: nat, p: Program, a: Act, path: seq<Around>, envs: seq<Env>, r: Res)
    requires a.fn < |p.funcs| && |envs| == |path|
  {
    r.out.Torn? || (r.out.Leaving? && Unwind(fuel, p, a, path, envs, r.out.level, r.d).out.Torn?)
  }

  /** The lowered run crashes, with at least `more` cleanups too many. */
  predicate Shown(d: Data, s: Res, more: int) {
    Counted(s.out) ==> s.out.Crashed? && Net(s.d.log) >= Net(d.log) + more
  }

  /** Running a pending cleanup adds one cleanup to the trace, and one more when it is torn. */
  ghost predicate Closes(fuel: nat, p: Program, a: Act, c: Tree)
    requires a.fn < |p.funcs|
  {
    forall env: Env, d: Data ::
      var r, s := Exec(fuel, p, a, env, c, d), Exec(fuel, LowerProgram(p), a, env, Lower(c, []), d);
      && (r.out.Torn? ==> Shown(d, s, 2))
      && (Counted(s.out) ==> !s.out.Leaving? && Net(s.d.log) >= Net(d.log) + 1)
  }

  ghost predicate PathCloses(fuel: nat, p: Program, a: Act, path: seq<Around>)
    requires a.fn < |p.funcs|
  {
    |path| == 0 || ((path[0].InNext? ==> Closes(fuel, p, a, path[0].cleanup)) && PathCloses(fuel, p, a, path[1..]))
  }

  lemma ClosesAt(fuel: nat, p: Program, a: Act, c: Tree, env: Env, d: Data)
    requires a.fn < |p.funcs| && Closes(fuel, p, a, c)
    ensures var r, s := Exec(fuel, p, a, env, c, d), Exec(fuel, LowerProgram(p), a, env, Lower(c, []), d);
      && (r.out.Torn? ==> Shown(d, s, 2))
      && (Counted(s.out) ==> !s.out.Leaving? && Net(s.d.log) >= Net(d.log) + 1)
  {
  }

  // ----- breaks -----

  lemma {:induction false} InlinedShows(fuel: nat, p: Program, a: Act, path: seq<Around>, envs: seq<Env>, env: Env,
                                        n: nat, k: nat, last: nat, d: Data)
    requires a.fn < |p.funcs| && |envs| == |path| && CleanupsRun(fuel, p, a, path, envs, env) && PathCloses(fuel, p, a, path)
    requires n <= k && Nearest(path, n) == Crossed(path, k) && last > 0
    requires Unwind(fuel, p, a, path, envs, k, d).out.Torn?
    ensures Shown(d, ExecChain(fuel, LowerProgram(p), a, env, Sequence(Inlined(Epis(path), n), Break(last)), d), 1)
    decreases |path|
  {
    hide Exec, Lower, Closes;
    var q := LowerProgram(p);
    if n == 0 {
      UnwindNothing(fuel, p, a, path, envs, k, d);
    } else {
      var more := if path[0].InBranch? then k else k - 1;
      assert Epis(path)[1..] == Epis(path[1..]);
      BreakCoverage.NearestAgainstCrossed(path[1..], n - 1, more);
      if path[0].InNext? {
        var c, l := path[0].cleanup, Lower(path[0].cleanup, []);
        assert Nearest(path, n)[1..] == Nearest(path[1..], n - 1);
        assert Crossed(path, k)[1..] == Crossed(path[1..], more);
        assert Inlined(Epis(path), n) == [l] + Inlined(Epis(path[1..]), n - 1);
        SameRun(fuel, p, a, env, envs[0], c, d);
        ClosedNeverLeaves(fuel, p, a, env, c, d);
        ClosesAt(fuel, p, a, c, env, d);
        var r, s := Exec(fuel, p, a, env, c, d), Exec(fuel, q, a, env, l, d);
        assert Same(r, s);
        var tail := Sequence(Inlined(Epis(path[1..]), n - 1), Break(last));
        assert Sequence(Inlined(Epis(path), n), Break(last)) == Link(l, tail) by { SequenceFirst(l, Inlined(Epis(path[1..]), n - 1), last); }
        if r.out.Normal? { InlinedShows(fuel, p, a, path[1..], envs[1..], env, n - 1, more, last, r.d); }
      } else {
        assert Inlined(Epis(path), n) == Inlined(Epis(path[1..]), n - 1);
        InlinedShows(fuel, p, a, path[1..], envs[1..], env, n - 1, more, last, d);
      }
    }
  }

  lemma SequenceFirst(l: Tree, cs: seq<Tree>, last: nat)
    ensures Sequence([l] + cs, Break(last)) == Link(l, Sequence(cs, Break(last)))
  {
    assert ([l] + cs)[1..] == cs;
  }

  lemma BreakShows(fuel: nat, p: Program, a: Act, path: seq<Around>, envs: seq<Env>, env: Env, level: nat, d: Data)
    requires a.fn < |p.funcs| && |envs| == |path| && CleanupsRun(fuel, p, a, path, envs, env) && PathCloses(fuel, p, a, path)
    requires level > 0 && Reaches(path, level) && TornHere(fuel, p, a, path, envs, Exec(fuel, p, a, env, Break(level), d))
    ensures Shown(d, Exec(fuel, LowerProgram(p), a, env, Lower(Break(level), Epis(path)), d), 1)
  {
    BreakCoverage.InlinedCleanups(path, level);
    var st := [Nothing] + Epis(path);
    assert st[1..] == Epis(path);
    assert Inlined(st, level) == Inlined(Epis(path), level - 1);
    InlinedNearest(path, level - 1);
    if |Inlined(st, level)| == 0 {
      UnwindNothing(fuel, p, a, path, envs, level, d);
    } else {
      InlinedShows(fuel, p, a, path, envs, env, level - 1, level, level + 1, d);
    }
  }

  /** Leaving a scope on both sides. */
  lemma LeaveShows(fuel: nat, p: Program, a: Act, path: seq<Around>, envs: seq<Env>, env: Env, r: Res, n: nat)
    requires a.fn < |p.funcs| && |envs| == |path| && TornHere(fuel, p, a, path, envs, Leave(r, n))
    ensures TornHere(fuel, p, a, [InScope] + path, [env] + envs, r)
  {
    var path1, envs1 := [InScope] + path, [env] + envs;
    assert path1[1..] == path && envs1[1..] == envs;
  }

  lemma LeaveShown(d: Data, s: Res, n: nat, more: int)
    requires Shown(d, s, more)
    ensures Shown(d, Leave(s, n), more)
  {
  }

  lemma ScopeCloses(fuel: nat, p: Program, a: Act, path: seq<Around>, e: Around)
    requires a.fn < |p.funcs| && PathCloses(fuel, p, a, path) && (e.InNext? ==> Closes(fuel, p, a, e.cleanup))
    ensures PathCloses(fuel, p, a, [e] + path)
  {
    assert ([e] + path)[1..] == path;
  }

  // ----- operations and calls -----

  lemma {:induction false} OpsShow(fuel: nat, p: Program, a: Act, env: Env, ops: seq<Op>, tys: seq<TypeId>, d: Data)
    requires a.fn < |p.funcs| && ProgramLowerable(p) && ProgramProbed(p) && Silent(ops)
    requires RunOps(fuel, p, a, env, ops, tys, d).out.Torn?
    ensures var s := RunOps(fuel, LowerProgram(p), a, env, ops, tys, d); Shown(d, Res(s.out, s.d), 1)
    decreases fuel, 0, |ops| + 1
  {
    hide ProgramLowerable, ProgramProbed, SimpleOp, RunFunc, Exec;
    assert |ops| > 0;
    var q := LowerProgram(p);
    if ops[0].Call? {
      var fn := ops[0].fn;
      var r := CallOp(fuel, p, p.funcs[a.fn], fn, tys, d);
      if fn < |p.funcs| && ArgsFit(p.funcs[fn].sig, tys) && |d.params| >= |tys| && fuel > 0 {
        FuncLowers(fuel - 1, p, fn, d);
        if RunFunc(fuel - 1, p, fn, d).out.Torn? { FuncShows(fuel - 1, p, fn, d); }
        FuncBalanced(fuel - 1, p, fn, d);
        if r.out.Normal? { ExtendsNet(d, r.d); }
      }
      if r.out.Normal? {
        assert CallOp(fuel, q, q.funcs[a.fn], fn, tys, d) == r;
        OpsShow(fuel, p, a, env, ops[1..], r.tys, r.d);
      }
    } else {
      var r := SimpleOp(p, p.funcs[a.fn], a, env, ops[0], tys, d);
      SimpleOpLowers(p, a, env, ops[0], tys, d);
      SimpleOpSilent(p, p.funcs[a.fn], a, env, ops[0], tys, d);
      SimpleNeverTorn(p, p.funcs[a.fn], a, env, ops[0], tys, d);
      OpsShow(fuel, p, a, env, ops[1..], r.tys, r.d);
    }
  }

  lemma SimpleNeverTorn(p: Program, f: Func, a: Act, env: Env, op: Op, tys: seq<TypeId>, d: Data)
    requires !op.Call?
    ensures !SimpleOp(p, f, a, env, op, tys, d).out.Torn?
  {
  }

  lemma {:induction false} FuncShows(fuel: nat, p: Program, fn: nat, d: Data)
    requires ProgramLowerable(p) && ProgramProbed(p) && fn < |p.funcs| && Argc(p.funcs[fn].sig) <= |d.params|
    requires RunFunc(fuel, p, fn, d).out.Torn?
    ensures Shown(d, RunFunc(fuel, LowerProgram(p), fn, d), 1)
    decreases fuel, 2 * Size(p.funcs[fn].body) + 1, 0
  {
    hide Exec, Lower;
    var f := p.funcs[fn];
    var d1 := Grow(d, RETURN_SIZE, Saved);
    TreeShows(fuel, p, Act(fn, |d.params| - Argc(f.sig)), [], [], map[], f.body, d1);
    assert Epis([]) == [];
    assert d1.log == d.log;
  }

  // ----- the main induction -----

  /** When a run of the source is torn, the lowered run shows one cleanup too many. */
  lemma {:induction false} TreeShows(fuel: nat, p: Program, a: Act, path: seq<Around>, envs: seq<Env>, env: Env, t: Tree, d: Data)
    requires a.fn < |p.funcs| && ProgramLowerable(p) && ProgramProbed(p) && Lowerable(t, path) && Probed(t)
    requires |envs| == |path| && CleanupsRun(fuel, p, a, path, envs, env) && PathCloses(fuel, p, a, path)
    requires TornHere(fuel, p, a, path, envs, Exec(fuel, p, a, env, t, d))
    ensures Shown(d, Exec(fuel, LowerProgram(p), a, env, Lower(t, Epis(path)), d), 1)
    decreases fuel, 2 * Size(t), 0
  {
    hide ProgramLowerable, ProgramProbed, CleanupsRun, PathCloses, RunOps, ExecChain, ExecLoop, Shown;
    var below := [Nothing] + Epis(path);
    match t
    case Basic(ops) =>
      BasicShows(fuel, p, a, env, ops, path, envs, d);
    case Many(kids) =>
      assert Epis([InScope] + path) == below;
      StepIn(fuel, p, a, path, envs, env, InScope);
      ScopeCloses(fuel, p, a, path, InScope);
      var r := ExecChain(fuel, p, a, env, kids, d);
      LeaveShows(fuel, p, a, path, envs, env, r, |d.mem.storage|);
      ChainShows(fuel, p, a, [InScope] + path, [env] + envs, env, kids, d);
      LeaveShown(d, ExecChain(fuel, LowerProgram(p), a, env, LowerChain(kids, below), d), |d.mem.storage|, 1);
    case Branch(cond, yes, no) => BranchShows(fuel, p, a, path, envs, env, t, d);
    case Loop(body) =>
      assert Epis([InScope] + path) == below;
      LoopShows(fuel, fuel, p, a, path, envs, env, body, d);
    case Var(v, body) => VarShows(fuel, p, a, path, envs, env, v, body, d);
    case Break(level) => BreakShows(fuel, p, a, path, envs, env, level, d);
    case Defer(next, cleanup) => DeferShows(fuel, p, a, path, envs, env, t, d);
    case _ =>
  }

  lemma {:induction false} BasicShows(fuel: nat, p: Program, a: Act, env: Env, ops: seq<Op>, path: seq<Around>, envs: seq<Env>, d: Data)
    requires a.fn < |p.funcs| && ProgramLowerable(p) && ProgramProbed(p) && Silent(ops) && |envs| == |path|
    requires TornHere(fuel, p, a, path, envs, ExecBasic(fuel, p, a, env, ops, d))
    ensures Shown(d, ExecBasic(fuel, LowerProgram(p), a, env, ops, d), 1)
    decreases fuel, 1, 0
  {
    hide ProgramLowerable, ProgramProbed, RunOps;
    OpsNeverLeave(fuel, p, a, env, ops, [], d);
    OpsShow(fuel, p, a, env, ops, [], d);
  }

  lemma {:induction false} VarShows(fuel: nat, p: Program, a: Act, path: seq<Around>, envs: seq<Env>, env: Env, v: nat, body: Tree, d: Data)
    requires a.fn < |p.funcs| && ProgramLowerable(p) && ProgramProbed(p) && Lowerable(Var(v, body), path) && Probed(body)
    requires |envs| == |path| && CleanupsRun(fuel, p, a, path, envs, env) && PathCloses(fuel, p, a, path)
    requires TornHere(fuel, p, a, path, envs, Exec(fuel, p, a, env, Var(v, body), d))
    ensures Shown(d, Exec(fuel, LowerProgram(p), a, env, Lower(Var(v, body), Epis(path)), d), 1)
    decreases fuel, 2 * Size(body) + 1, 0
  {
    hide ProgramLowerable, ProgramProbed, CleanupsRun, PathCloses;
    var f, n := p.funcs[a.fn], |d.mem.storage|;
    var below := [Nothing] + Epis(path);
    RebindUnused(fuel, p, a, path, envs, env, v, n);
    assert Epis([InScope] + path) == below;
    StepIn(fuel, p, a, path, envs, env[v := n], InScope);
    ScopeCloses(fuel, p, a, path, InScope);
    var d1 := Grow(d, f.types[f.vars[v]].size, Byte(0));
    var r := Exec(fuel, p, a, env[v := n], body, d1);
    LeaveShows(fuel, p, a, path, envs, env[v := n], r, n);
    TreeShows(fuel, p, a, [InScope] + path, [env[v := n]] + envs, env[v := n], body, d1);
    LeaveShown(d1, Exec(fuel, LowerProgram(p), a, env[v := n], Lower(body, below), d1), n, 1);
  }

  lemma {:induction false} BranchShows(fuel: nat, p: Program, a: Act, path: seq<Around>, envs: seq<Env>, env: Env, t: Tree, d: Data)
    requires a.fn < |p.funcs| && ProgramLowerable(p) && ProgramProbed(p) && Lowerable(t, path) && Probed(t) && t.Branch?
    requires |envs| == |path| && CleanupsRun(fuel, p, a, path, envs, env) && PathCloses(fuel, p, a, path)
    requires TornHere(fuel, p, a, path, envs, Exec(fuel, p, a, env, t, d))
    ensures Shown(d, Exec(fuel, LowerProgram(p), a, env, Lower(t, Epis(path)), d), 1)
    decreases fuel, 2 * Size(t) - 1, 0
  {
    hide ProgramLowerable, ProgramProbed, CleanupsRun, PathCloses, RunOps;
    var below := [Nothing] + Epis(path);
    OpsLower(fuel, p, a, env, t.cond, [], d);
    OpsNeverLeave(fuel, p, a, env, t.cond, [], d);
    var (r, taken) := ExecCond(fuel, p, a, env, t.cond, d);
    if r.out.Normal? {
      var arm := if taken then t.yes else t.no;
      assert Epis([InBranch] + path) == below;
      StepIn(fuel, p, a, path, envs, env, InBranch);
      ScopeCloses(fuel, p, a, path, InBranch);
      assert ([env] + envs)[1..] == envs && ([InBranch] + path)[1..] == path;
      TreeShows(fuel, p, a, [InBranch] + path, [env] + envs, env, arm, r.d);
      OpsBalanced(fuel, p, a, env, t.cond, [], d);
      ExtendsNet(d, r.d);
    } else {
      OpsShow(fuel, p, a, env, t.cond, [], d);
    }
  }

  lemma {:induction false} ChainShows(fuel: nat, p: Program, a: Act, path: seq<Around>, envs: seq<Env>, env: Env, ch: Chain, d: Data)
    requires a.fn < |p.funcs| && ProgramLowerable(p) && ProgramProbed(p) && ChainLowerable(ch, path) && ChainProbed(ch)
    requires |envs| == |path| && CleanupsRun(fuel, p, a, path, envs, env) && PathCloses(fuel, p, a, path)
    requires TornHere(fuel, p, a, path, envs, ExecChain(fuel, p, a, env, ch, d))
    ensures Shown(d, ExecChain(fuel, LowerProgram(p), a, env, LowerChain(ch, Epis(path)), d), 1)
    decreases fuel, 2 * ChainSize(ch), 0
  {
    hide ProgramLowerable, ProgramProbed, CleanupsRun, PathCloses, Exec, Lower, Extends;
    TreeLowers(fuel, p, a, path, envs, env, ch.cur, d);
    var r := Exec(fuel, p, a, env, ch.cur, d);
    if r.out.Normal? {
      TreeBalanced(fuel, p, a, env, ch.cur, d);
      ExtendsNet(d, r.d);
      ChainShows(fuel, p, a, path, envs, env, ch.rest, r.d);
    } else {
      TreeShows(fuel, p, a, path, envs, env, ch.cur, d);
    }
  }

  lemma {:induction false} LoopShows(k: nat, fuel: nat, p: Program, a: Act, path: seq<Around>, envs: seq<Env>, env: Env, body: Tree, d: Data)
    requires a.fn < |p.funcs| && ProgramLowerable(p) && ProgramProbed(p) && Lowerable(body, [InScope] + path) && Probed(body)
    requires |envs| == |path| && CleanupsRun(fuel, p, a, path, envs, env) && PathCloses(fuel, p, a, path)
    requires TornHere(fuel, p, a, path, envs, ExecLoop(k, fuel, p, a, env, body, d))
    ensures Shown(d, ExecLoop(k, fuel, LowerProgram(p), a, env, Lower(body, [Nothing] + Epis(path)), d), 1)
    decreases fuel, 2 * Size(body) + 1, k
  {
    hide ProgramLowerable, ProgramProbed, CleanupsRun, PathCloses, Exec, Lower, Extends;
    assert k > 0;
    var path1, envs1 := [InScope] + path, [env] + envs;
    assert path1[1..] == path && envs1[1..] == envs;
    assert Epis(path1) == [Nothing] + Epis(path);
    StepIn(fuel, p, a, path, envs, env, InScope);
    ScopeCloses(fuel, p, a, path, InScope);
    TreeLowers(fuel, p, a, path1, envs1, env, body, d);
    var r := Exec(fuel, p, a, env, body, d);
    var s := Exec(fuel, LowerProgram(p), a, env, Lower(body, Epis(path1)), d);
    if r.out.Normal? {
      TreeBalanced(fuel, p, a, env, body, d);
      ExtendsNet(d, r.d);
      LoopShows(k - 1, fuel, p, a, path, envs, env, body, r.d);
    } else {
      LeaveShows(fuel, p, a, path, envs, env, r, |d.mem.storage|);
      TreeShows(fuel, p, a, path1, envs1, env, body, d);
      LeaveShown(d, s, |d.mem.storage|, 1);
    }
  }

  // ----- defers -----

  /** The cleanup of a probed defer. */
  predicate Ending(c: Tree) {
    && c.Many? && c.kids.Link? && c.kids.cur.Basic? && |c.kids.cur.ops| == 1 && c.kids.cur.ops[0].Null?
    && c.kids.cur.ops[0].tag % 2 == 1
  }

  /** The protected part of a probed defer. */
  predicate Starting(c: Tree) {
    && c.Many? && c.kids.Link? && c.kids.cur.Basic? && |c.kids.cur.ops| == 1 && c.kids.cur.ops[0].Null?
    && c.kids.cur.ops[0].tag % 2 == 0
  }

  lemma DeferParts(t: Tree)
    requires t.Defer? && Probed(t)
    ensures Starting(t.next) && Ending(t.cleanup) && ChainProbed(t.next.kids.rest) && ChainProbed(t.cleanup.kids.rest)
  {
  }

  /** A tree that starts with a probe, lowered. */
  lemma LowerProbed(t: Tree, epis: seq<Epi>)
    requires t.Many? && t.kids.Link? && t.kids.cur.Basic?
    ensures Lower(t, epis) == Many(Link(t.kids.cur, LowerChain(t.kids.rest, [Nothing] + epis)))
  {
    var below := [Nothing] + epis;
    assert Lower(t.kids.cur, below) == t.kids.cur;
    assert LowerChain(t.kids, below) == Link(Lower(t.kids.cur, below), LowerChain(t.kids.rest, below));
  }

  /** How it runs on both sides: the rest runs after the probe. */
  lemma ProbedRuns(fuel: nat, p: Program, a: Act, env: Env, t: Tree, epis: seq<Epi>, d: Data)
    requires a.fn < |p.funcs| && (Starting(t) || Ending(t))
    ensures var e := d.(log := d.log + [t.kids.cur.ops[0].tag]);
      && Exec(fuel, p, a, env, t, d) == Leave(ExecChain(fuel, p, a, env, t.kids.rest, e), |d.mem.storage|)
      && Exec(fuel, LowerProgram(p), a, env, Lower(t, epis), d)
         == Leave(ExecChain(fuel, LowerProgram(p), a, env, LowerChain(t.kids.rest, [Nothing] + epis), e), |d.mem.storage|)
  {
    hide ExecChain, LowerChain;
    LowerProbed(t, epis);
    ProbePassed(fuel, p, a, env, t.kids, d);
    ProbePassed(fuel, LowerProgram(p), a, env, Link(t.kids.cur, LowerChain(t.kids.rest, [Nothing] + epis)), d);
  }

  lemma KidsLowerable(t: Tree, path: seq<Around>)
    requires t.Many? && t.kids.Link? && Lowerable(t, path)
    ensures ChainLowerable(t.kids.rest, [InScope] + path)
  {
  }

  /** A probed cleanup adds itself to the trace, and more when it is torn. */
  lemma {:induction false} CleanupCloses(fuel: nat, p: Program, a: Act, c: Tree)
    requires a.fn < |p.funcs| && ProgramLowerable(p) && ProgramProbed(p) && Lowerable(c, []) && Ir.Closed(c)
    requires Ending(c) && ChainProbed(c.kids.rest)
    ensures Closes(fuel, p, a, c)
    decreases fuel, 2 * Size(c), 1
  {
    hide ProgramLowerable, ProgramProbed, Exec, ExecChain, LowerChain, Lower, Lowerable, Probed;
    forall env: Env, d: Data
      ensures var r, s := Exec(fuel, p, a, env, c, d), Exec(fuel, LowerProgram(p), a, env, Lower(c, []), d);
        && (r.out.Torn? ==> Shown(d, s, 2))
        && (Counted(s.out) ==> !s.out.Leaving? && Net(s.d.log) >= Net(d.log) + 1)
    {
      CleanupClosesAt(fuel, p, a, c, env, d);
    }
  }

  lemma {:induction false} CleanupClosesAt(fuel: nat, p: Program, a: Act, c: Tree, env: Env, d: Data)
    requires a.fn < |p.funcs| && ProgramLowerable(p) && ProgramProbed(p) && Lowerable(c, []) && Ir.Closed(c)
    requires Ending(c) && ChainProbed(c.kids.rest)
    ensures var r, s := Exec(fuel, p, a, env, c, d), Exec(fuel, LowerProgram(p), a, env, Lower(c, []), d);
      && (r.out.Torn? ==> Shown(d, s, 2))
      && (Counted(s.out) ==> !s.out.Leaving? && Net(s.d.log) >= Net(d.log) + 1)
    decreases fuel, 2 * Size(c), 0
  {
    hide ProgramLowerable, ProgramProbed, Exec, ExecChain, LowerChain, Lower, Lowerable, Probed, Extends;
    RestIsSmaller(c);
    ProbedRuns(fuel, p, a, env, c, [], d);
    var e := d.(log := d.log + [c.kids.cur.ops[0].tag]);
    NetProbe(d.log, c.kids.cur.ops[0].tag);
    var r0 := ExecChain(fuel, p, a, env, c.kids.rest, e);
    var r, s := Exec(fuel, p, a, env, c, d), Exec(fuel, LowerProgram(p), a, env, Lower(c, []), d);
    KidsLowerable(c, []);
    TreeLowers(fuel, p, a, [], [], env, c, d);
    ClosedNeverLeaves(fuel, p, a, env, c, d);
    assert Epis([]) == [] && Epis([InScope]) == [Nothing] && [InScope] + [] == [InScope] && [Nothing] + [] == [Nothing];
    if r.out.Torn? {
      assert CleanupsRun(fuel, p, a, [InScope], [env], env) && PathCloses(fuel, p, a, [InScope]);
      assert TornHere(fuel, p, a, [InScope], [env], r0);
      ChainShows(fuel, p, a, [InScope], [env], env, c.kids.rest, e);
      LeaveShown(e, ExecChain(fuel, LowerProgram(p), a, env, LowerChain(c.kids.rest, [Nothing]), e), |d.mem.storage|, 1);
    } else {
      assert s == r;
      ChainBalanced(fuel, p, a, env, c.kids.rest, e);
      if Counted(r0.out) { ExtendsNet(e, r0.d); }
    }
  }

  /** The protected part: one start more, and one cleanup too many when it is torn. */
  lemma {:induction false} NextShows(fuel: nat, p: Program, a: Act, path: seq<Around>, envs: seq<Env>, env: Env, next: Tree, d: Data)
    requires a.fn < |p.funcs| && ProgramLowerable(p) && ProgramProbed(p) && Lowerable(next, path)
    requires Starting(next) && ChainProbed(next.kids.rest)
    requires |envs| == |path| && CleanupsRun(fuel, p, a, path, envs, env) && PathCloses(fuel, p, a, path)
    ensures var r := Exec(fuel, p, a, env, next, d);
      && (TornHere(fuel, p, a, path, envs, r) ==> Shown(d, Exec(fuel, LowerProgram(p), a, env, Lower(next, Epis(path)), d), 0))
      && (Counted(r.out) ==> Net(r.d.log) == Net(d.log) - 1)
    decreases fuel, 2 * Size(next), 0
  {
    hide ProgramLowerable, ProgramProbed, Exec, ExecChain, LowerChain, Lower, Lowerable, Probed, Extends, CleanupsRun, PathCloses;
    RestIsSmaller(next);
    ProbedRuns(fuel, p, a, env, next, Epis(path), d);
    var e := d.(log := d.log + [next.kids.cur.ops[0].tag]);
    NetProbe(d.log, next.kids.cur.ops[0].tag);
    var r0 := ExecChain(fuel, p, a, env, next.kids.rest, e);
    var r := Exec(fuel, p, a, env, next, d);
    ChainBalanced(fuel, p, a, env, next.kids.rest, e);
    if Counted(r0.out) { ExtendsNet(e, r0.d); }
    if TornHere(fuel, p, a, path, envs, r) {
      KidsLowerable(next, path);
      StepIn(fuel, p, a, path, envs, env, InScope);
      ScopeCloses(fuel, p, a, path, InScope);
      LeaveShows(fuel, p, a, path, envs, env, r0, |d.mem.storage|);
      assert Epis([InScope] + path) == [Nothing] + Epis(path) by { assert ([InScope] + path)[1..] == path; }
      ChainShows(fuel, p, a, [InScope] + path, [env] + envs, env, next.kids.rest, e);
      LeaveShown(e, ExecChain(fuel, LowerProgram(p), a, env, LowerChain(next.kids.rest, [Nothing] + Epis(path)), e), |d.mem.storage|, 1);
    }
  }

  lemma {:induction false} DeferShows(fuel: nat, p: Program, a: Act, path: seq<Around>, envs: seq<Env>, env: Env, t: Tree, d: Data)
    requires a.fn < |p.funcs| && ProgramLowerable(p) && ProgramProbed(p) && Lowerable(t, path) && Probed(t) && t.Defer?
    requires |envs| == |path| && CleanupsRun(fuel, p, a, path, envs, env) && PathCloses(fuel, p, a, path)
    requires TornHere(fuel, p, a, path, envs, Exec(fuel, p, a, env, t, d))
    ensures Shown(d, Exec(fuel, LowerProgram(p), a, env, Lower(t, Epis(path)), d), 1)
    decreases fuel, 2 * Size(t) - 1, 0
  {
    hide Exec, ProgramLowerable, ProgramProbed, CleanupsRun, PathCloses, Closes, LowersWell, Probed, Extends;
    DeferParts(t);
    var q, below := LowerProgram(p), [Nothing] + Epis(path);
    var c := Lower(t.cleanup, []);
    ClosedLowersAlike(t.cleanup, below);
    CleanupLowers(fuel, p, a, t.cleanup);
    CleanupCloses(fuel, p, a, t.cleanup);
    var path1, envs1 := [InNext(t.cleanup)] + path, [env] + envs;
    assert path1[1..] == path && envs1[1..] == envs;
    assert Epis(path1) == [Pending(c)] + Epis(path);
    StepIn(fuel, p, a, path, envs, env, InNext(t.cleanup));
    ScopeCloses(fuel, p, a, path, InNext(t.cleanup));
    TreeLowers(fuel, p, a, path1, envs1, env, t.next, d);
    NextShows(fuel, p, a, path1, envs1, env, t.next, d);
    var r := Exec(fuel, p, a, env, t.next, d);
    var s := Exec(fuel, q, a, env, Lower(t.next, Epis(path1)), d);
    assert Lower(t, Epis(path)) == Many(Link(CrashPad(Lower(t.next, Epis(path1)), c), Link(c, End)));
    LoweredDeferRun(fuel, q, a, env, Lower(t.next, Epis(path1)), c, d);
    DeferRun(fuel, p, a, env, t.next, t.cleanup, d);
    ClosedNeverLeaves(fuel, p, a, env, t.cleanup, r.d);
    ClosedNeverLeaves(fuel, p, a, env, t.cleanup, Restored(r.d, d));
    if r.out.Leaving? { UnwindNext(fuel, p, a, path, envs, env, t.cleanup, r.out.level, r.d); }
    hide Lower, Unwind;
    if TornHere(fuel, p, a, path1, envs1, r) {
      ClosesAt(fuel, p, a, t.cleanup, env, Restored(s.d, d));
    } else if r.out.Normal? {
      ClosesAt(fuel, p, a, t.cleanup, env, r.d);
    } else {
      ClosesAt(fuel, p, a, t.cleanup, env, Restored(r.d, d));
    }
  }

  // ----- the result -----

  /** Over every run that is not stopped hard: the lowered program runs every cleanup exactly
      once, innermost first, if and only if no cleanup that a break was running soft-crashed. */
  lemma CleansUpOnceExactly(fuel: nat, p: Program, fn: nat, d: Data)
    requires ProgramLowerable(p) && ProgramProbed(p) && fn < |p.funcs| && Argc(p.funcs[fn].sig) <= |d.params|
    requires Counted(RunFunc(fuel, LowerProgram(p), fn, d).out)
    ensures Extends(d, RunFunc(fuel, LowerProgram(p), fn, d).d) <==> !RunFunc(fuel, p, fn, d).out.Torn?
    ensures RunFunc(fuel, LowerProgram(p), fn, d) == RunFunc(fuel, p, fn, d) <==> !RunFunc(fuel, p, fn, d).out.Torn?
  {
    hide ProgramLowerable, ProgramProbed, Extends, RunFunc;
    var s := RunFunc(fuel, LowerProgram(p), fn, d);
    FuncLowers(fuel, p, fn, d);
    if RunFunc(fuel, p, fn, d).out.Torn? {
      FuncShows(fuel, p, fn, d);
      if Extends(d, s.d) { ExtendsNet(d, s.d); }
    } else {
      FuncBalanced(fuel, p, fn, d);
    }
  }
}
