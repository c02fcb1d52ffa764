/** The runs in which a cleanup runs twice, shown: the smallest one, and when a cleanup of
    plain operations makes one. */
module CleanupTwice {
  import opened Memory
  import opened Ir
  import opened Semantics
  import opened Lowering
  import opened LoweringFacts
  import opened LoweringProof
  import opened Cleanup
  import opened TornRuns

  // ----- a break out of a defer -----

  /** A break out of a defer, with nothing else around. */
  function BreakOut(c: Tree): Tree { Many(Link(Defer(Break(2), c), End)) }

  lemma SourceBreakOut(fuel: nat, q: Program, a: Act, env: Env, c: Tree, d: Data)
    requires a.fn < |q.funcs|
    ensures var once := Exec(fuel, q, a, env, c, d);
            var r := Exec(fuel, q, a, env, BreakOut(c), d);
            && (once.out.Normal? ==> r == Res(Normal, Cut(once.d, |d.mem.storage|)))
            && (once.out.Crashed? ==> r == Res(Torn, once.d))
  {
    DeferRun(fuel, q, a, env, Break(2), c, d);
    assert Exec(fuel, q, a, env, Break(2), d) == Res(Leaving(2), d);
    var m := Exec(fuel, q, a, env, Defer(Break(2), c), d);
    assert ExecChain(fuel, q, a, env, Link(Defer(Break(2), c), End), d) == if m.out.Normal? then Res(Normal, m.d) else m;
  }

  /** The cleanup inlined at a break runs while the crash pad of its defer is still
      installed. If it soft-crashes there, the lowered tree runs it a second time, on the
      state the pad restores; with defers it runs once, and the run is torn. */
  lemma CrashingCleanupRunsAgain(fuel: nat, q: Program, a: Act, env: Env, c: Tree, d: Data)
    requires a.fn < |q.funcs| && Closed(c)
    ensures var l := Lower(c, []);
            var first := Exec(fuel, q, a, env, l, d);
            var second := Exec(fuel, q, a, env, l, Restored(first.d, d));
            var s := Exec(fuel, q, a, env, Lower(BreakOut(c), []), d);
            && (first.out.Normal? ==> s == Res(Normal, Cut(first.d, |d.mem.storage|)))
            && (first.out.Crashed? && second.out.Normal? ==> s == Res(Crashed, Crashing(second.d, VM_CRASH)))
            && (first.out.Crashed? && second.out.Crashed? ==> s == second)
    ensures var once := Exec(fuel, q, a, env, c, d);
            var r := Exec(fuel, q, a, env, BreakOut(c), d);
            && (once.out.Normal? ==> r == Res(Normal, Cut(once.d, |d.mem.storage|)))
            && (once.out.Crashed? ==> r == Res(Torn, once.d))
  {
    hide Ir.Closed;
    SourceBreakOut(fuel, q, a, env, c, d);
    var l := Lower(c, []);
    ClosedLowersAlike(c, [Nothing, Nothing]);
    var epis := [Pending(l)] + [Nothing];
    var b := Many(Sequence([l], Break(3)));
    assert Inlined([Nothing] + epis, 2) == [l] by {
      assert ([Nothing] + epis)[1..] == epis;
      assert Inlined(epis, 1) == [l];
    }
    assert Lower(Break(2), epis) == b;
    assert [Nothing] + [] == [Nothing];
    assert Lower(Defer(Break(2), c), [Nothing]) == Many(Link(CrashPad(b, l), Link(l, End))) by {
      assert [Nothing] + [Nothing] == [Nothing, Nothing];
    }
    var first := Exec(fuel, q, a, env, l, d);
    var ch := Link(Break(3), End);
    assert [l][1..] == [];
    assert Sequence([l], Break(3)) == Link(l, ch);
    if first.out.Normal? {
      assert ExecChain(fuel, q, a, env, ch, first.d) == Res(Leaving(3), first.d);
    }
    assert ExecChain(fuel, q, a, env, Link(l, ch), d) ==
      if first.out.Normal? then Res(Leaving(3), first.d) else first;
    LoweredDeferRun(fuel, q, a, env, b, l, d);
    var inner := Lower(Defer(Break(2), c), [Nothing]);
    var m := Exec(fuel, q, a, env, inner, d);
    assert ExecChain(fuel, q, a, env, Link(inner, End), d) == if m.out.Normal? then Res(Normal, m.d) else m;
  }

  // ----- the same with probes -----

  /** A defer with probes whose protected part is a break out of the function. */
  function OutStart(tag: nat): Tree { Many(Link(Basic([Null(2 * tag)]), Link(Break(3), End))) }

  function OutCleanup(tag: nat, rest: Chain): Tree { Many(Link(Basic([Null(2 * tag + 1)]), rest)) }

  function ProbedOut(tag: nat, rest: Chain): Tree { Many(Link(Defer(OutStart(tag), OutCleanup(tag, rest)), End)) }

  function Passed(d: Data, tag: nat): Data { d.(log := d.log + [tag]) }

  lemma StartRuns(fuel: nat, p: Program, a: Act, env: Env, tag: nat, d: Data)
    requires a.fn < |p.funcs|
    ensures Exec(fuel, p, a, env, OutStart(tag), d) == Res(Leaving(2), Passed(d, 2 * tag))
  {
    ProbePassed(fuel, p, a, env, OutStart(tag).kids, d);
    assert ExecChain(fuel, p, a, env, Link(Break(3), End), Passed(d, 2 * tag)) == Res(Leaving(3), Passed(d, 2 * tag));
  }

  /** With defers: the cleanup runs once, and if it soft-crashes the run is torn. */
  lemma OutRuns(fuel: nat, p: Program, a: Act, env: Env, tag: nat, rest: Chain, d: Data)
    requires a.fn < |p.funcs|
    ensures var c := ExecChain(fuel, p, a, env, rest, Passed(Passed(d, 2 * tag), 2 * tag + 1));
      var r := Exec(fuel, p, a, env, ProbedOut(tag, rest), d);
      && (c.out.Crashed? ==> r == Res(Torn, c.d))
      && (!c.out.Crashed? && !c.out.Torn? ==> !r.out.Torn?)
  {
    var e := Passed(d, 2 * tag);
    StartRuns(fuel, p, a, env, tag, d);
    ProbePassed(fuel, p, a, env, OutCleanup(tag, rest).kids, e);
    var c := ExecChain(fuel, p, a, env, rest, Passed(e, 2 * tag + 1));
    assert Exec(fuel, p, a, env, OutCleanup(tag, rest), e) == Leave(c, |e.mem.storage|);
    DeferRun(fuel, p, a, env, OutStart(tag), OutCleanup(tag, rest), d);
    var m := Exec(fuel, p, a, env, Defer(OutStart(tag), OutCleanup(tag, rest)), d);
    assert ExecChain(fuel, p, a, env, Link(Defer(OutStart(tag), OutCleanup(tag, rest)), End), d) == if m.out.Normal? then Res(Normal, m.d) else m;
  }

  lemma OutProbed(tag: nat, rest: Chain)
    requires ChainProbed(rest)
    ensures Probed(ProbedOut(tag, rest))
  {
    var s, c := OutStart(tag), OutCleanup(tag, rest);
    assert ChainProbed(s.kids.rest) by { assert ChainProbed(End) && Probed(Break(3)); }
    assert Probed(Defer(s, c));
    assert ChainProbed(End);
  }

  lemma OutLowerable(tag: nat, rest: Chain)
    requires ChainEscapes(rest, 1) && ChainLowerable(rest, [InScope])
    ensures Lowerable(ProbedOut(tag, rest), [])
  {
    var s, c := OutStart(tag), OutCleanup(tag, rest);
    assert [InScope] + [] == [InScope];
    assert Ir.Closed(c) by { assert ChainEscapes(c.kids, 1); }
    assert Lowerable(c, []) by { assert ChainLowerable(c.kids, [InScope]); }
    var path := [InScope] + ([InNext(c)] + [InScope]);
    assert path == [InScope, InNext(c), InScope];
    OutReaches(c);
    assert Lowerable(Break(3), path);
    assert ChainLowerable(Link(Break(3), End), path) by { assert ChainLowerable(End, path); }
    assert ChainLowerable(s.kids, path);
    assert Lowerable(s, [InNext(c)] + [InScope]);
    assert Lowerable(Defer(s, c), [InScope]);
    assert ChainLowerable(Link(Defer(s, c), End), [InScope]) by { assert ChainLowerable(End, [InScope]); }
  }

  lemma OutReaches(c: Tree)
    ensures var path := [InScope, InNext(c), InScope]; Reaches(path, 3) && Scopes(path) == 3
  {
    var path := [InScope, InNext(c), InScope];
    assert path[1..] == [InNext(c), InScope] && path[1..][1..] == [InScope] && path[1..][1..][1..] == [];
    assert Scopes([InScope]) == 1 && Scopes([InNext(c), InScope]) == 2;
    assert Outermost([InScope], 1) == 0 && Outermost([InNext(c), InScope], 2) == 1 && Outermost(path, 3) == 2;
    assert path[..2] == [InScope, InNext(c)] && path[..2][1..] == [InNext(c)] && path[..2][1..][1..] == [];
    assert Branches([InNext(c)]) == 0 && Scopes([InNext(c)]) == 1;
  }

  // ----- the smallest program -----

  const NOTHING: Sig := Sig([], [])

  function OneFunc(sig: Sig, types: seq<Type>, vars: seq<TypeId>, tag: nat, rest: Chain): Program {
    Program([Func(sig, types, vars, ProbedOut(tag, rest))], [], (id, m, ps) => NativeWild)
  }

  lemma OneFuncOk(sig: Sig, types: seq<Type>, vars: seq<TypeId>, tag: nat, rest: Chain)
    requires ChainEscapes(rest, 1) && ChainLowerable(rest, [InScope]) && ChainProbed(rest)
    ensures ProgramLowerable(OneFunc(sig, types, vars, tag, rest)) && ProgramProbed(OneFunc(sig, types, vars, tag, rest))
  {
    OutProbed(tag, rest);
    OutLowerable(tag, rest);
  }

  /** A cleanup that just crashes, run for a break: with defers it runs once; the lowered
      program runs it twice. */
  lemma RunsTwice(fuel: nat)
    ensures var p := OneFunc(NOTHING, [], [], 0, Link(SoftCrash, End));
      var d := Data(Mem([], [], []), [], VM_OK, []);
      && ProgramLowerable(p) && ProgramProbed(p)
      && RunFunc(fuel, p, 0, d).out.Torn? && RunFunc(fuel, p, 0, d).d.log == [0, 1]
      && RunFunc(fuel, LowerProgram(p), 0, d).out.Crashed? && RunFunc(fuel, LowerProgram(p), 0, d).d.log == [0, 1, 1]
      && !Extends(d, RunFunc(fuel, LowerProgram(p), 0, d).d)
  {
    hide RunFunc, Exec, ExecChain, ProgramLowerable, ProgramProbed, Extends, Lower;
    var rest := Link(SoftCrash, End);
    var p := OneFunc(NOTHING, [], [], 0, rest);
    var d := Data(Mem([], [], []), [], VM_OK, []);
    CrashIsFine();
    OneFuncOk(NOTHING, [], [], 0, rest);
    var d1 := Grow(d, RETURN_SIZE, Saved);
    OutRuns(fuel, p, Act(0, 0), map[], 0, rest, d1);
    CrashChain(fuel, p, Act(0, 0), map[], Passed(Passed(d1, 0), 1));
    FuncEnds(fuel, p, 0, d);
    LoweredTwice(fuel, LowerProgram(p), Act(0, 0), map[], d1);
    FuncEnds(fuel, LowerProgram(p), 0, d);
    assert [] + [0, 1, 1] == [0, 1, 1] && ([] + [0]) + [1] == [0, 1];
    CleansUpOnceExactly(fuel, p, 0, d);
  }

  lemma CrashIsFine()
    ensures var rest := Link(SoftCrash, End); ChainEscapes(rest, 1) && ChainLowerable(rest, [InScope]) && ChainProbed(rest)
  {
    assert ChainEscapes(End, 1) && ChainLowerable(End, [InScope]) && ChainProbed(End);
    assert Escapes(SoftCrash, 1) && Lowerable(SoftCrash, [InScope]) && Probed(SoftCrash);
  }

  lemma CrashChain(fuel: nat, q: Program, a: Act, env: Env, d: Data)
    requires a.fn < |q.funcs|
    ensures ExecChain(fuel, q, a, env, Link(SoftCrash, End), d) == Res(Crashed, Crashing(d, VM_CRASH))
  {
  }

  /** A function that crashes or is torn ends as its body does. */
  lemma FuncEnds(fuel: nat, p: Program, fn: nat, d: Data)
    requires fn < |p.funcs| && Argc(p.funcs[fn].sig) <= |d.params|
    ensures var r := Exec(fuel, p, Act(fn, |d.params| - Argc(p.funcs[fn].sig)), map[], p.funcs[fn].body, Grow(d, RETURN_SIZE, Saved));
      && (RunFunc(fuel, p, fn, d).out.Torn? <==> r.out.Torn?)
      && (r.out.Torn? || r.out.Crashed? ==> RunFunc(fuel, p, fn, d) == r)
  {
    hide Exec;
  }

  /** The lowered tree of the smallest program, run. */
  lemma LoweredTwice(fuel: nat, q: Program, a: Act, env: Env, d: Data)
    requires a.fn < |q.funcs| && |d.params| == 0
    ensures var s := Exec(fuel, q, a, env, Lower(ProbedOut(0, Link(SoftCrash, End)), []), d);
      s.out.Crashed? && s.d.log == d.log + [0, 1, 1]
  {
    var c := OutCleanup(0, Link(SoftCrash, End));
    var epis := [Nothing, Pending(c), Nothing];
    assert Lower(c, []) == c by { PlainLowers([]); }
    PlainLowers([Nothing]);
    PlainLowers([Nothing, Nothing]);
    var b := Many(Sequence([c], Break(4)));
    assert Lower(Break(3), epis) == b by { InlinesOne(c); }
    var s := Many(Link(Basic([Null(0)]), Link(b, End)));
    assert Lower(OutStart(0), [Pending(c), Nothing]) == s by { StartLowers(c, b); }
    var t := Many(Link(CrashPad(s, c), Link(c, End)));
    assert [Nothing] + [] == [Nothing] && [Pending(c)] + [Nothing] == [Pending(c), Nothing] && [Nothing] + [Nothing] == [Nothing, Nothing];
    assert Lower(Defer(OutStart(0), c), [Nothing]) == t;
    assert LowerChain(End, [Nothing]) == End;
    assert Lower(ProbedOut(0, Link(SoftCrash, End)), []) == Many(Link(t, End));
    var d1 := Passed(d, 0);
    CrashRuns(fuel, q, a, env, d1);
    var first := Exec(fuel, q, a, env, c, d1);
    assert Sequence([c], Break(4)) == Link(c, Link(Break(4), End)) by { assert [c][1..] == []; }
    assert Exec(fuel, q, a, env, b, d1) == first;
    ProbePassed(fuel, q, a, env, s.kids, d);
    assert ExecChain(fuel, q, a, env, Link(b, End), d1) == first;
    assert Exec(fuel, q, a, env, s, d) == first;
    var d2 := Restored(first.d, d);
    CrashRuns(fuel, q, a, env, d2);
    LoweredDeferRun(fuel, q, a, env, s, c, d);
    assert ExecChain(fuel, q, a, env, Link(t, End), d) == Exec(fuel, q, a, env, t, d);
    assert d.log + [0] + [1] + [1] == d.log + [0, 1, 1];
  }

  lemma CrashRuns(fuel: nat, q: Program, a: Act, env: Env, d: Data)
    requires a.fn < |q.funcs|
    ensures Exec(fuel, q, a, env, OutCleanup(0, Link(SoftCrash, End)), d) == Res(Crashed, Crashing(Passed(d, 1), VM_CRASH))
  {
    ProbePassed(fuel, q, a, env, OutCleanup(0, Link(SoftCrash, End)).kids, d);
    assert ExecChain(fuel, q, a, env, Link(SoftCrash, End), Passed(d, 1)) == Res(Crashed, Crashing(Passed(d, 1), VM_CRASH));
  }

  lemma PlainLowers(epis: seq<Epi>)
    ensures Lower(OutCleanup(0, Link(SoftCrash, End)), epis) == OutCleanup(0, Link(SoftCrash, End))
  {
    var below := [Nothing] + epis;
    assert Lower(SoftCrash, below) == SoftCrash && LowerChain(End, below) == End;
    assert LowerChain(Link(SoftCrash, End), below) == Link(SoftCrash, End);
    LowerProbed(OutCleanup(0, Link(SoftCrash, End)), epis);
  }

  lemma InlinesOne(c: Tree)
    ensures Lower(Break(3), [Nothing, Pending(c), Nothing]) == Many(Sequence([c], Break(4)))
  {
    var below := [Nothing] + [Nothing, Pending(c), Nothing];
    assert below[1..] == [Nothing, Pending(c), Nothing] && below[1..][1..] == [Pending(c), Nothing] && below[1..][1..][1..] == [Nothing];
    assert Inlined([Nothing], 0) == [] && Inlined([Pending(c), Nothing], 1) == [c] && Inlined(below[1..], 2) == [c] && Inlined(below, 3) == [c];
  }

  lemma StartLowers(c: Tree, b: Tree)
    requires Lower(Break(3), [Nothing, Pending(c), Nothing]) == b
    ensures Lower(OutStart(0), [Pending(c), Nothing]) == Many(Link(Basic([Null(0)]), Link(b, End)))
  {
    var below := [Nothing] + [Pending(c), Nothing];
    assert below == [Nothing, Pending(c), Nothing];
    assert LowerChain(End, below) == End;
    assert LowerChain(Link(Break(3), End), below) == Link(b, End);
    LowerProbed(OutStart(0), [Pending(c), Nothing]);
  }
}
